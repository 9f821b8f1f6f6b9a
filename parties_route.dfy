/**
  `/api/parties`: GET lists the active parties by name to any logged-in user; POST,
  for ADMIN and MANAGER only, adds a party under its trimmed name with its
  empty optional fields stored as null, and a phone row and an email row
  only for the values given.
 */
module PartiesRoute {
  import opened Common
  import opened Strings
  import opened Db
  import opened Sorting

  /** The ids of the active parties, in table order. */
  function ActivePartyIds(parties: seq<Party>): (ids: seq<Id>)
    ensures forall i :: 0 <= i < |ids| ==> ids[i] < |parties| && parties[ids[i]].isActive
    ensures forall k :: 0 <= k < |parties| && parties[k].isActive ==> k in ids
    ensures forall i, j :: 0 <= i < j < |ids| ==> ids[i] < ids[j]
  {
    if parties == [] then []
    else
      var n := |parties| - 1;
      ActivePartyIds(parties[..n]) + (if parties[n].isActive then [n] else [])
  }

  /** The name a party id is sorted by. */
  function NameOf(parties: seq<Party>, id: Id): string
  {
    if id < |parties| then parties[id].name else ""
  }

  /** The active parties' ids, each once, sorted by name ascending. */
  function PartiesByName(parties: seq<Party>): (r: seq<Id>)
    ensures SortedBy(r, (id: Id) => NameOf(parties, id)) && Distinct(r)
    ensures forall id: Id :: id in r <==> id < |parties| && parties[id].isActive
  {
    var ids := ActivePartyIds(parties);
    var r := SortBy(ids, (id: Id) => NameOf(parties, id));
    SameElements(ids, r);
    DistinctPermutation(ids, r);
    r
  }

  /** GET: 401 without a session, else the active parties sorted by name. */
  function ListParties(parties: seq<Party>, session: Option<SessionUser>): (r: Reply<seq<Id>>)
    ensures r.Fail? <==> session.None?
    ensures r.Fail? ==> r == Fail(401, "Unauthorized")
    ensures r.Ok? ==> r.value == PartiesByName(parties)
  {
    if session.None? then Fail(401, "Unauthorized") else Ok(PartiesByName(parties))
  }

  /** The request body of POST. */
  datatype NewPartyInput = NewPartyInput(
    name: Option<string>, address: Option<string>, gstNumber: Option<string>, drugLicenseNumber: Option<string>,
    notes: Option<string>, phone: Option<string>, email: Option<string>)

  const PartyRoles: seq<Role> := [Admin, Manager]

  datatype PartiesOutcome = PartiesOutcome(reply: Reply<Id>, parties: seq<Party>, phones: seq<Phone>, emails: seq<Email>)

  /** `phone ? { create: { phone } } : undefined`: one row for a given value, none otherwise. */
  function ContactRow<T>(value: Option<string>, row: string -> T): (rows: seq<T>)
    ensures |rows| == (if Truthy(value) then 1 else 0)
    ensures Truthy(value) ==> rows == [row(value.value)]
  {
    if Truthy(value) then [row(value.value)] else []
  }

  function CreatePartyStep(parties: seq<Party>, phones: seq<Phone>, emails: seq<Email>, session: Option<SessionUser>,
                           p: NewPartyInput): PartiesOutcome
  {
    if !RoleGate(session, PartyRoles) then
      PartiesOutcome(Fail(403, "Forbidden"), parties, phones, emails)
    else if Blank(p.name) then
      PartiesOutcome(Fail(400, "Name required"), parties, phones, emails)
    else
      var id := |parties|;
      var row := Party(Trim(p.name.value), OrNull(p.address), OrNull(p.gstNumber), OrNull(p.drugLicenseNumber),
                       OrNull(p.notes), true);
      PartiesOutcome(Ok(id), parties + [row],
                     phones + ContactRow(p.phone, (s: string) => Phone(id, s)),
                     emails + ContactRow(p.email, (s: string) => Email(id, s)))
  }

  /** The handler: the role gate, the name check, then one insert with its nested phone and email rows. */
  method CreateParty(db: Database, session: Option<SessionUser>, p: NewPartyInput) returns (r: Reply<Id>)
    modifies db`parties, db`phones, db`emails
    ensures PartiesOutcome(r, db.parties, db.phones, db.emails)
         == CreatePartyStep(old(db.parties), old(db.phones), old(db.emails), session, p)
  {
    if !RoleGate(session, PartyRoles) {
      return Fail(403, "Forbidden");
    }
    if Blank(p.name) {
      return Fail(400, "Name required");
    }
    var id := |db.parties|;
    db.parties := db.parties + [Party(Trim(p.name.value), OrNull(p.address), OrNull(p.gstNumber),
                                      OrNull(p.drugLicenseNumber), OrNull(p.notes), true)];
    if Truthy(p.phone) {
      db.phones := db.phones + [Phone(id, p.phone.value)];
    }
    if Truthy(p.email) {
      db.emails := db.emails + [Email(id, p.email.value)];
    }
    return Ok(id);
  }

  // ---------------------------------------------------------------- properties

  /** 403 outside ADMIN and MANAGER, then 400 for a blank name; neither writes anything. */
  lemma CreateRefusals(parties: seq<Party>, phones: seq<Phone>, emails: seq<Email>, session: Option<SessionUser>,
                       p: NewPartyInput)
    ensures var out := CreatePartyStep(parties, phones, emails, session, p);
      && (out.reply.Fail? ==> out.parties == parties && out.phones == phones && out.emails == emails)
      && (out.reply == Fail(403, "Forbidden") <==> !(session.Some? && session.value.role in {Admin, Manager}))
      && (out.reply == Fail(400, "Name required") <==> RoleGate(session, PartyRoles) && Blank(p.name))
  {
  }

  /**
    A created party is active under its trimmed, non-empty name, with each
    optional field as given or null when empty; exactly the given phone and
    email become rows, pointing at it.
   */
  lemma PartyCreated(parties: seq<Party>, phones: seq<Phone>, emails: seq<Email>, session: Option<SessionUser>,
                     p: NewPartyInput)
    ensures var out := CreatePartyStep(parties, phones, emails, session, p);
      out.reply.Ok? ==>
        var id := out.reply.value;
        && id == |parties| && out.parties == parties + [out.parties[id]]
        && out.parties[id].name == Trim(p.name.value) && out.parties[id].name != [] && out.parties[id].isActive
        && out.parties[id].address == (if Truthy(p.address) then p.address else None)
        && out.parties[id].gstNumber == (if Truthy(p.gstNumber) then p.gstNumber else None)
        && out.parties[id].drugLicenseNumber == (if Truthy(p.drugLicenseNumber) then p.drugLicenseNumber else None)
        && out.phones == phones + (if Truthy(p.phone) then [Phone(id, p.phone.value)] else [])
        && out.emails == emails + (if Truthy(p.email) then [Email(id, p.email.value)] else [])
  {
  }

  /** Creating a party keeps every phone and email pointing at a party. */
  lemma CreateKeepsContactsValid(parties: seq<Party>, phones: seq<Phone>, emails: seq<Email>,
                                 session: Option<SessionUser>, p: NewPartyInput)
    requires PhonesValid(phones, |parties|) && EmailsValid(emails, |parties|)
    ensures var out := CreatePartyStep(parties, phones, emails, session, p);
      PhonesValid(out.phones, |out.parties|) && EmailsValid(out.emails, |out.parties|)
  {
    var out := CreatePartyStep(parties, phones, emails, session, p);
    if out.reply.Ok? {
      PartyCreated(parties, phones, emails, session, p);
      PhonesGrow(phones, if Truthy(p.phone) then [Phone(|parties|, p.phone.value)] else [], |parties|);
      EmailsGrow(emails, if Truthy(p.email) then [Email(|parties|, p.email.value)] else [], |parties|);
    }
  }

  /** A created party is in the next GET's list, and so is every party listed before. */
  lemma CreatedPartyListed(parties: seq<Party>, phones: seq<Phone>, emails: seq<Email>, session: Option<SessionUser>,
                           p: NewPartyInput, other: SessionUser)
    ensures var out := CreatePartyStep(parties, phones, emails, session, p);
      out.reply.Ok? ==>
        && out.reply.value in ListParties(out.parties, Some(other)).value
        && forall id :: id in PartiesByName(parties) ==> id in ListParties(out.parties, Some(other)).value
  {
  }
}
