/** The CRM as the handoff sees it: contacts and leads found by phone, and the operations the
    handoff sequence performs. Any other actor may add records; ids only grow. */
module Crm {
  import opened Prelude
  import opened LeadPayload

  datatype Lead = Lead(contact: int, status: Option<int>, fields: map<int, string>)

  datatype Crm = Crm(contacts: map<int, string>, leads: map<int, Lead>, nextId: int)

  ghost predicate ValidCrm(crm: Crm) {
    && (forall c :: c in crm.contacts ==> c < crm.nextId)
    && (forall l :: l in crm.leads ==> l < crm.nextId && crm.leads[l].contact in crm.contacts)
  }

  predicate LeadOfPhone(crm: Crm, phone: string, l: int) {
    l in crm.leads && crm.leads[l].contact in crm.contacts && crm.contacts[crm.leads[l].contact] == phone
  }

  ghost predicate HasLead(crm: Crm, phone: string) {
    exists l :: LeadOfPhone(crm, phone, l)
  }

  // ---- Searching ----

  /** A contact returned by a phone search, with its linked lead ids. */
  datatype Match = Match(contactId: int, leadIds: seq<int>)

  /** The search is exact: it lists the phone's contacts, each with all of its leads. */
  ghost predicate ExactSearch(crm: Crm, phone: string, matches: seq<Match>) {
    && (forall m :: m in matches ==> m.contactId in crm.contacts && crm.contacts[m.contactId] == phone)
    && (forall m, l :: m in matches ==> (l in m.leadIds <==> l in crm.leads && crm.leads[l].contact == m.contactId))
    && (forall c :: c in crm.contacts && crm.contacts[c] == phone ==> exists m :: m in matches && m.contactId == c)
  }

  datatype Resolution =
    | Reuse(lead: int, contact: int)
    | CreateOn(contact: int)
    | CreateBoth

  function PairsOf(m: Match): seq<(int, int)> {
    seq(|m.leadIds|, i requires 0 <= i < |m.leadIds| => (m.leadIds[i], m.contactId))
  }

  function Pairs(matches: seq<Match>): seq<(int, int)> {
    if matches == [] then [] else PairsOf(matches[0]) + Pairs(matches[1..])
  }

  /** The first pair with the highest lead id. */
  function MaxPair(pairs: seq<(int, int)>): (r: (int, int))
    requires pairs != []
    ensures r in pairs
    ensures forall p :: p in pairs ==> p.0 <= r.0
  {
    if |pairs| == 1 then pairs[0]
    else
      var best := MaxPair(pairs[1..]);
      if best.0 > pairs[0].0 then best else pairs[0]
  }

  function MaxContact(matches: seq<Match>): (r: int)
    requires matches != []
    ensures exists m :: m in matches && m.contactId == r
    ensures forall m :: m in matches ==> m.contactId <= r
  {
    if |matches| == 1 then matches[0].contactId
    else
      var best := MaxContact(matches[1..]);
      if best > matches[0].contactId then best else assert matches[0] in matches; matches[0].contactId
  }

  /** Reuse the most recent lead, or create one on the most recent contact, or create both. */
  function Resolve(matches: seq<Match>): Resolution {
    var pairs := Pairs(matches);
    if pairs != [] then
      var best := MaxPair(pairs);
      Reuse(best.0, best.1)
    else if matches != [] then CreateOn(MaxContact(matches))
    else CreateBoth
  }

  lemma {:induction false} PairsComplete(matches: seq<Match>, p: (int, int))
    ensures p in Pairs(matches) <==> exists m :: m in matches && m.contactId == p.1 && p.0 in m.leadIds
  {
    if matches != [] {
      PairsComplete(matches[1..], p);
      var m0 := matches[0];
      assert m0 in matches;
      if m0.contactId == p.1 && p.0 in m0.leadIds {
        var i :| 0 <= i < |m0.leadIds| && m0.leadIds[i] == p.0;
        assert PairsOf(m0)[i] == p;
      }
      if p in PairsOf(m0) {
        var i :| 0 <= i < |PairsOf(m0)| && PairsOf(m0)[i] == p;
      }
      assert forall m :: m in matches <==> m == m0 || m in matches[1..];
    }
  }

  /** What resolving means, with no reference to the search result's order. */
  ghost predicate IsResolution(crm: Crm, phone: string, r: Resolution) {
    match r
    case Reuse(l, c) =>
      LeadOfPhone(crm, phone, l) && crm.leads[l].contact == c && forall k :: LeadOfPhone(crm, phone, k) ==> k <= l
    case CreateOn(c) =>
      !HasLead(crm, phone) && c in crm.contacts && crm.contacts[c] == phone
      && forall d :: d in crm.contacts && crm.contacts[d] == phone ==> d <= c
    case CreateBoth =>
      forall c :: c in crm.contacts ==> crm.contacts[c] != phone
  }

  /** The pair chosen belongs together: the contact owns the phone's most recent lead. */
  lemma ResolveIsExact(crm: Crm, phone: string, matches: seq<Match>)
    requires ExactSearch(crm, phone, matches)
    ensures IsResolution(crm, phone, Resolve(matches))
  {
    var pairs := Pairs(matches);
    forall l | LeadOfPhone(crm, phone, l) ensures (l, crm.leads[l].contact) in pairs {
      var m :| m in matches && m.contactId == crm.leads[l].contact;
      PairsComplete(matches, (l, crm.leads[l].contact));
    }
    if pairs != [] {
      var best := MaxPair(pairs);
      PairsComplete(matches, best);
      forall k | LeadOfPhone(crm, phone, k) ensures k <= best.0 {
        assert (k, crm.leads[k].contact) in pairs;
      }
    }
  }

  /** Exact searches of the same CRM resolve the same way. */
  lemma ResolutionUnique(crm: Crm, phone: string, r: Resolution, s: Resolution)
    requires IsResolution(crm, phone, r) && IsResolution(crm, phone, s)
    ensures r == s
  {
    if r.Reuse? { assert HasLead(crm, phone); }
    if s.Reuse? { assert HasLead(crm, phone); }
  }

  // ---- Writing ----

  /** Creates a contact and its lead; the server numbers both and puts the lead in its
      default stage. */
  function WithBoth(crm: Crm, phone: string, defaultStage: int): Crm {
    Crm(crm.contacts[crm.nextId := phone],
        crm.leads[crm.nextId + 1 := Lead(crm.nextId, Some(defaultStage), map[])],
        crm.nextId + 2)
  }

  function WithLead(crm: Crm, contact: int, defaultStage: int): Crm {
    crm.(leads := crm.leads[crm.nextId := Lead(contact, Some(defaultStage), map[])], nextId := crm.nextId + 1)
  }

  function AsMap(values: seq<FieldValue>): map<int, string> {
    if values == [] then map[]
    else AsMap(values[..|values| - 1])[values[|values| - 1].fieldId := values[|values| - 1].text]
  }

  /** One PATCH: the custom fields, and the stage when it is to be moved. */
  function Patched(crm: Crm, l: int, values: seq<FieldValue>, stage: Option<int>): Crm
    requires l in crm.leads
  {
    var lead := crm.leads[l];
    crm.(leads := crm.leads[l := Lead(lead.contact, if stage.Some? then stage else lead.status, lead.fields + AsMap(values))])
  }

  lemma {:induction false} AsMapHolds(values: seq<FieldValue>, id: int, text: string)
    requires DistinctIds(values)
    ensures FieldValue(id, text) in values <==> id in AsMap(values) && AsMap(values)[id] == text
    ensures id in AsMap(values) <==> exists i :: 0 <= i < |values| && values[i].fieldId == id
  {
    if values != [] {
      var n := |values| - 1;
      AsMapHolds(values[..n], id, text);
      assert values == values[..n] + [values[n]];
    }
  }

  /** Patching again with the same values and stage changes nothing. */
  lemma PatchedTwice(crm: Crm, l: int, values: seq<FieldValue>, stage: Option<int>)
    requires l in crm.leads
    ensures Patched(Patched(crm, l, values, stage), l, values, stage) == Patched(crm, l, values, stage)
  {
    var m := AsMap(values);
    assert (crm.leads[l].fields + m) + m == crm.leads[l].fields + m;
    assert crm.leads[l := crm.leads[l]] == crm.leads;
  }

  /** Another actor may add contacts and leads and restage or edit leads; it removes nothing
      and does not give a lead another contact or a contact another phone. */
  ghost predicate Extends(crm: Crm, after: Crm) {
    && (forall c :: c in crm.contacts ==> c in after.contacts && after.contacts[c] == crm.contacts[c])
    && (forall l :: l in crm.leads ==> l in after.leads && after.leads[l].contact == crm.leads[l].contact)
    && crm.nextId <= after.nextId
    && ValidCrm(after)
  }
}
