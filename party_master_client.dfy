/**
  The party-master page: the list of parties with a search box, and one
  modal form that adds a party or edits the one it was opened on. What the
  save sends is modelled as the request it would make (method, URL, body);
  the fetches themselves are not part of this model.
 */
module PartyMasterClient {
  import opened Common
  import opened Strings
  import opened Seqs
  import opened JsObjects

  /** A party as the list route returns it, with its phone numbers and email addresses in order. */
  datatype PartyRow = PartyRow(id: Id, name: string, address: Option<string>, gstNumber: Option<string>,
                               drugLicenseNumber: Option<string>, notes: Option<string>, isActive: bool,
                               phones: seq<string>, emails: seq<string>)

  /** The values the search looks at: name, GST, drug licence, address, then every phone and every email. */
  function SearchValues(p: PartyRow): seq<Option<string>>
  {
    [Some(p.name), p.gstNumber, p.drugLicenseNumber, p.address]
    + seq(|p.phones|, i requires 0 <= i < |p.phones| => Some(p.phones[i]))
    + seq(|p.emails|, i requires 0 <= i < |p.emails| => Some(p.emails[i]))
  }

  /** `v?.toLowerCase().includes(q)`: a null value never matches. */
  predicate ValueMatches(v: Option<string>, q: string)
  {
    v.Some? && Contains(ToLower(v.value), q)
  }

  /** `.some(...)` over the search values. */
  predicate AnyMatches(vs: seq<Option<string>>, q: string)
  {
    vs != [] && (ValueMatches(vs[0], q) || AnyMatches(vs[1..], q))
  }

  /** `filtered`: the parties whose search values contain the lower-cased search, in order. */
  function Filtered(parties: seq<PartyRow>, search: string): seq<PartyRow>
  {
    Filter(parties, (p: PartyRow) => AnyMatches(SearchValues(p), ToLower(search)))
  }

  /** The modal's form: every field as text, with one phone and one email. */
  datatype PartyForm = PartyForm(name: string, address: string, gstNumber: string, drugLicenseNumber: string,
                                 notes: string, phone: string, email: string)

  const EmptyPartyForm := PartyForm("", "", "", "", "", "", "")

  datatype Modal = Closed | Adding | Editing

  datatype PartyPage = PartyPage(modal: Modal, editing: Option<PartyRow>, form: PartyForm, err: string)

  /** `openAdd()`: an empty form, editing nothing. */
  function OpenAdd(page: PartyPage): PartyPage
  {
    page.(form := EmptyPartyForm, editing := None, err := "", modal := Adding)
  }

  /** The first element, or "" for an empty list (`xs[0]?.x ?? ""`). */
  function FirstOr(xs: seq<string>): string
  {
    if xs == [] then "" else xs[0]
  }

  /** `openEdit(p)`: the form filled from the party, null fields as "", and its first phone and email. */
  function OpenEdit(page: PartyPage, p: PartyRow): PartyPage
  {
    var f := PartyForm(p.name, p.address.GetOr(""), p.gstNumber.GetOr(""), p.drugLicenseNumber.GetOr(""),
                       p.notes.GetOr(""), FirstOr(p.phones), FirstOr(p.emails));
    page.(form := f, editing := Some(p), err := "", modal := Editing)
  }

  datatype Verb = Post | Patch

  datatype PartyRequest = PartyRequest(verb: Verb, url: string, body: PartyForm)

  const PartiesUrl := "/api/parties"

  /** `save()`: a blank name is refused; otherwise PATCH the party being edited, or POST a new one. */
  function SaveRequest(page: PartyPage): Submit<PartyRequest>
  {
    if Trim(page.form.name) == "" then Invalid("Party name is required")
    else match page.editing
      case Some(p) => Send(PartyRequest(Patch, PartiesUrl + "/" + NatToString(p.id), page.form))
      case None => Send(PartyRequest(Post, PartiesUrl, page.form))
  }

  /** The page after `save()` is pressed, before any reply: the refusal's message, or the error cleared while sending. */
  function SavePressed(page: PartyPage): PartyPage
  {
    match SaveRequest(page)
    case Invalid(e) => page.(err := e)
    case Send(_) => page.(err := "")
  }

  // ---------------------------------------------------------------- properties

  /** `.some` is "one of the values matches". */
  lemma {:induction false} AnyMatchesExists(vs: seq<Option<string>>, q: string)
    ensures AnyMatches(vs, q) <==> exists i :: 0 <= i < |vs| && ValueMatches(vs[i], q)
  {
    if vs != [] {
      AnyMatchesExists(vs[1..], q);
      if !ValueMatches(vs[0], q) && AnyMatches(vs, q) {
        var i :| 0 <= i < |vs[1..]| && ValueMatches(vs[1..][i], q);
        assert ValueMatches(vs[i + 1], q);
      }
      if exists i :: 0 <= i < |vs| && ValueMatches(vs[i], q) {
        var i :| 0 <= i < |vs| && ValueMatches(vs[i], q);
        if i > 0 {
          assert ValueMatches(vs[1..][i - 1], q);
        }
      }
    }
  }

  /** The search test field by field: null fields are skipped, and every phone and email is looked at. */
  predicate PartyMatches(p: PartyRow, q: string)
  {
    || Contains(ToLower(p.name), q)
    || ValueMatches(p.gstNumber, q) || ValueMatches(p.drugLicenseNumber, q) || ValueMatches(p.address, q)
    || (exists i :: 0 <= i < |p.phones| && Contains(ToLower(p.phones[i]), q))
    || (exists i :: 0 <= i < |p.emails| && Contains(ToLower(p.emails[i]), q))
  }

  /** Where each field of `p` sits among the values `vs`. */
  predicate LaidOut(p: PartyRow, vs: seq<Option<string>>)
  {
    && |vs| == 4 + |p.phones| + |p.emails|
    && vs[0] == Some(p.name) && vs[1] == p.gstNumber && vs[2] == p.drugLicenseNumber && vs[3] == p.address
    && (forall i :: 0 <= i < |p.phones| ==> vs[4 + i] == Some(p.phones[i]))
    && (forall i :: 0 <= i < |p.emails| ==> vs[4 + |p.phones| + i] == Some(p.emails[i]))
  }

  /** The search values are the name, GST number, drug licence and address, then every phone, then every email. */
  lemma SearchValuesLayout(p: PartyRow)
    ensures LaidOut(p, SearchValues(p))
  {
    var head := [Some(p.name), p.gstNumber, p.drugLicenseNumber, p.address];
    var phones := seq(|p.phones|, i requires 0 <= i < |p.phones| => Some(p.phones[i]));
    var emails := seq(|p.emails|, i requires 0 <= i < |p.emails| => Some(p.emails[i]));
    var vs := head + phones + emails;
    assert SearchValues(p) == vs;
    forall i | 0 <= i < |p.phones|
      ensures vs[4 + i] == Some(p.phones[i])
    {
      assert vs[4 + i] == (head + phones)[4 + i] == phones[i];
    }
    forall i | 0 <= i < |p.emails|
      ensures vs[4 + |p.phones| + i] == Some(p.emails[i])
    {
      assert vs[4 + |p.phones| + i] == emails[i];
    }
  }

  lemma SearchValuesMatch(p: PartyRow, q: string)
    ensures AnyMatches(SearchValues(p), q) <==> PartyMatches(p, q)
  {
    var vs := SearchValues(p);
    AnyMatchesExists(vs, q);
    SearchValuesLayout(p);
    if AnyMatches(vs, q) {
      MatchedValueIsField(p, q, vs);
    }
    if PartyMatches(p, q) {
      MatchedFieldIsValue(p, q, vs);
    }
  }

  lemma MatchedValueIsField(p: PartyRow, q: string, vs: seq<Option<string>>)
    requires LaidOut(p, vs) && exists i :: 0 <= i < |vs| && ValueMatches(vs[i], q)
    ensures PartyMatches(p, q)
  {
    var n := |p.phones|;
    var i :| 0 <= i < |vs| && ValueMatches(vs[i], q);
    if 4 <= i < 4 + n {
      assert ValueMatches(Some(p.phones[i - 4]), q);
    } else if 4 + n <= i {
      assert ValueMatches(Some(p.emails[i - 4 - n]), q);
    }
  }

  lemma MatchedFieldIsValue(p: PartyRow, q: string, vs: seq<Option<string>>)
    requires LaidOut(p, vs) && PartyMatches(p, q)
    ensures exists i :: 0 <= i < |vs| && ValueMatches(vs[i], q)
  {
    var n := |p.phones|;
    if Contains(ToLower(p.name), q) {
      assert ValueMatches(vs[0], q);
    } else if ValueMatches(p.gstNumber, q) {
      assert ValueMatches(vs[1], q);
    } else if ValueMatches(p.drugLicenseNumber, q) {
      assert ValueMatches(vs[2], q);
    } else if ValueMatches(p.address, q) {
      assert ValueMatches(vs[3], q);
    } else if exists i :: 0 <= i < n && Contains(ToLower(p.phones[i]), q) {
      var i :| 0 <= i < n && Contains(ToLower(p.phones[i]), q);
      assert ValueMatches(vs[4 + i], q);
    } else {
      var i :| 0 <= i < |p.emails| && Contains(ToLower(p.emails[i]), q);
      assert ValueMatches(vs[4 + n + i], q);
    }
  }

  /**
    A party is shown exactly when its name, GST number, drug licence,
    address, one of its phones or one of its emails contains the search,
    ignoring case.
   */
  lemma ShownIffMatches(parties: seq<PartyRow>, search: string, p: PartyRow)
    requires p in parties
    ensures p in Filtered(parties, search) <==> PartyMatches(p, ToLower(search))
  {
    SearchValuesMatch(p, ToLower(search));
    if PartyMatches(p, ToLower(search)) {
      FilterKeeps(parties, (x: PartyRow) => AnyMatches(SearchValues(x), ToLower(search)), p);
    }
  }

  /** With an empty search every party is shown, in order: the name is always a string, and contains "". */
  lemma EmptySearchShowsAll(parties: seq<PartyRow>)
    ensures Filtered(parties, "") == parties
  {
    forall i | 0 <= i < |parties|
      ensures AnyMatches(SearchValues(parties[i]), "")
    {
      ContainsEmpty(ToLower(parties[i].name));
      assert ValueMatches(SearchValues(parties[i])[0], "");
    }
    FilterAll(parties, (x: PartyRow) => AnyMatches(SearchValues(x), ToLower("")));
  }

  /**
    Opening the add form empties it and forgets any party being edited; saving
    it untouched is refused, and once a name is typed the save is a POST.
   */
  lemma OpenAddResets(page: PartyPage, name: string)
    ensures var r := OpenAdd(page);
      && r.form == EmptyPartyForm && r.editing.None? && r.err == "" && r.modal == Adding
      && SaveRequest(r).Invalid?
      && (Trim(name) != "" ==>
            SaveRequest(r.(form := r.form.(name := name))) == Send(PartyRequest(Post, PartiesUrl, r.form.(name := name))))
  {
  }

  /** Opening the edit form fills it from the party: null fields as "", its first phone and email, or "". */
  lemma OpenEditFills(page: PartyPage, p: PartyRow)
    ensures var f := OpenEdit(page, p).form;
      && f.name == p.name && OpenEdit(page, p).editing == Some(p) && OpenEdit(page, p).modal == Editing
      && (p.address.None? ==> f.address == "") && (p.address.Some? ==> f.address == p.address.value)
      && (p.gstNumber.None? ==> f.gstNumber == "") && (p.notes.None? ==> f.notes == "")
      && (|p.phones| > 0 ==> f.phone == p.phones[0]) && (p.phones == [] ==> f.phone == "")
      && (|p.emails| > 0 ==> f.email == p.emails[0]) && (p.emails == [] ==> f.email == "")
  {
  }

  /**
    A name of white space alone is refused with a message and nothing is
    sent; any other name is sent, the whole form as the body, by PATCH to
    the edited party's own URL or by POST to the list.
   */
  lemma SaveGuardAndTarget(page: PartyPage)
    ensures SaveRequest(page).Invalid? <==> forall i :: 0 <= i < |page.form.name| ==> IsSpace(page.form.name[i])
    ensures SaveRequest(page).Invalid? ==> SavePressed(page).err == "Party name is required"
    ensures SaveRequest(page).Send? ==>
      var r := SaveRequest(page).body;
      && r.body == page.form
      && (page.editing.None? ==> r.verb == Post && r.url == PartiesUrl)
      && (page.editing.Some? ==>
            && r.verb == Patch && r.url[..|PartiesUrl| + 1] == PartiesUrl + "/"
            && AllDigits(r.url[|PartiesUrl| + 1..]) && DecimalValue(r.url[|PartiesUrl| + 1..]) == page.editing.value.id)
  {
    TrimEmptyIffBlank(page.form.name);
    if SaveRequest(page).Send? && page.editing.Some? {
      var id := page.editing.value.id;
      DecimalRoundTrip(id);
      assert SaveRequest(page).body.url == (PartiesUrl + "/") + NatToString(id);
    }
  }
}
