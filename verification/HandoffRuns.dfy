/** The CRM half of a handoff: find or create the lead, post the note, then publish fields
    and stage in one PATCH. Any call may raise, before or after the server applied it. */
module HandoffRuns {
  import opened Prelude
  import opened Schemas
  import opened Slots
  import opened Conversations
  import opened LeadPayload
  import opened Crm

  /** Per-client funnel: the order of its stages, the stage each reason targets, and the
      stage the CRM puts new leads in. */
  datatype Mapping = Mapping(
    tables: FieldTables,
    sort: map<int, int>,
    complete: int, stuck: int, humanRequested: int, noResponse: int,
    defaultStage: int)
  {
    function StageFor(reason: HandoffReason): int {
      match reason
      case Complete => complete
      case Stuck => stuck
      case HumanRequested => humanRequested
      case NoResponse => noResponse
    }
  }

  /** What one awaited call does: it is answered; it never reaches the server; or the server
      applies it and the caller still sees an error. */
  datatype CallFault = Answered | Dropped | AnswerLost

  datatype Faults = Faults(find: CallFault, create: CallFault, note: CallFault, read: CallFault, patch: CallFault)

  const NO_FAULTS := Faults(Answered, Answered, Answered, Answered, Answered)

  datatype PostedNote = PostedNote(lead: int, reason: HandoffReason, pending: seq<SlotName>)

  datatype Server = Server(crm: Crm, notes: seq<PostedNote>)

  datatype Request = Request(reason: HandoffReason, phone: string, slots: SlotMap, pending: seq<SlotName>)

  datatype Target = Target(lead: int, contact: int, isNew: bool)

  datatype Resolving = Resolving(server: Server, target: Option<Target>)

  datatype RunResult = RunResult(lead: int, contact: int)

  /** The server after a run, and the run's result unless it raised. */
  datatype Ran = Ran(server: Server, result: Option<RunResult>)

  /** A new lead always moves; a reused one only forward, and only within the known stages. */
  predicate ShouldMove(mapping: Mapping, isNew: bool, status: Option<int>, reason: HandoffReason) {
    || isNew
    || (&& status.Some? && status.value in mapping.sort
        && mapping.StageFor(reason) in mapping.sort
        && mapping.sort[status.value] <= mapping.sort[mapping.StageFor(reason)])
  }

  function CreateIf(server: Server, created: Crm, target: Target, fault: CallFault): Resolving {
    match fault
    case Dropped => Resolving(server, None)
    case AnswerLost => Resolving(server.(crm := created), None)
    case Answered => Resolving(server.(crm := created), Some(target))
  }

  function ResolveLead(mapping: Mapping, server: Server, phone: string, matches: seq<Match>, faults: Faults): Resolving {
    if faults.find != Answered then Resolving(server, None)
    else
      match Resolve(matches)
      case Reuse(l, c) => Resolving(server, Some(Target(l, c, false)))
      case CreateOn(c) =>
        CreateIf(server, WithLead(server.crm, c, mapping.defaultStage), Target(server.crm.nextId, c, true), faults.create)
      case CreateBoth =>
        CreateIf(server, WithBoth(server.crm, phone, mapping.defaultStage),
                 Target(server.crm.nextId + 1, server.crm.nextId, true), faults.create)
  }

  /** The stage a PATCH carries, read off the lead as it stands. */
  function StageToSet(mapping: Mapping, crm: Crm, target: Target, reason: HandoffReason): Option<int>
    requires target.lead in crm.leads
  {
    if ShouldMove(mapping, target.isNew, crm.leads[target.lead].status, reason) then Some(mapping.StageFor(reason)) else None
  }

  function PatchedFor(mapping: Mapping, crm: Crm, target: Target, request: Request): Crm
    requires target.lead in crm.leads && HasAllIds(mapping.tables)
  {
    Patched(crm, target.lead, CustomFields(mapping.tables, request.slots), StageToSet(mapping, crm, target, request.reason))
  }

  function Publish(mapping: Mapping, server: Server, target: Target, request: Request, faults: Faults): Ran
    requires target.lead in server.crm.leads && HasAllIds(mapping.tables)
  {
    if faults.note == Dropped then Ran(server, None)
    else
      var noted := server.(notes := server.notes + [PostedNote(target.lead, request.reason, request.pending)]);
      if faults.note == AnswerLost then Ran(noted, None)
      else if !target.isNew && faults.read != Answered then Ran(noted, None)
      else if faults.patch == Dropped then Ran(noted, None)
      else
        var published := noted.(crm := PatchedFor(mapping, server.crm, target, request));
        Ran(published, if faults.patch == Answered then Some(RunResult(target.lead, target.contact)) else None)
  }

  function Run(mapping: Mapping, server: Server, request: Request, matches: seq<Match>, faults: Faults): Ran
    requires ExactSearch(server.crm, request.phone, matches) && HasAllIds(mapping.tables)
  {
    ResolveIsExact(server.crm, request.phone, matches);
    var r := ResolveLead(mapping, server, request.phone, matches, faults);
    if r.target.None? then Ran(r.server, None)
    else Publish(mapping, r.server, r.target.value, request, faults)
  }

  // ---- The same sequence against the CRM client, call by call ----

  /** The CRM client: each call reports `None` when it raises. */
  class CrmClient {
    var server: Server
    var faults: Faults
    var found: seq<Match>

    constructor (server: Server, faults: Faults, found: seq<Match>)
      ensures this.server == server && this.faults == faults && this.found == found
    {
      this.server := server;
      this.faults := faults;
      this.found := found;
    }

    method FindContactByPhone(phone: string) returns (matches: Option<seq<Match>>)
      ensures matches == if faults.find == Answered then Some(found) else None
    {
      matches := if faults.find == Answered then Some(found) else None;
    }

    method CreateLead(created: Crm, target: Target) returns (result: Option<Target>)
      modifies this`server
      ensures Resolving(server, result) == CreateIf(old(server), created, target, faults.create)
    {
      if faults.create != Dropped {
        server := server.(crm := created);
      }
      result := if faults.create == Answered then Some(target) else None;
    }

    method AddNote(note: PostedNote) returns (ok: bool)
      modifies this`server
      ensures server == if faults.note == Dropped then old(server) else old(server).(notes := old(server).notes + [note])
      ensures ok <==> faults.note == Answered
    {
      if faults.note != Dropped {
        server := server.(notes := server.notes + [note]);
      }
      ok := faults.note == Answered;
    }

    method GetLead(lead: int) returns (status: Option<Option<int>>)
      requires lead in server.crm.leads
      ensures status == if faults.read == Answered then Some(server.crm.leads[lead].status) else None
    {
      status := if faults.read == Answered then Some(server.crm.leads[lead].status) else None;
    }

    method UpdateLead(lead: int, values: seq<FieldValue>, stage: Option<int>) returns (ok: bool)
      requires lead in server.crm.leads
      modifies this`server
      ensures server == if faults.patch == Dropped then old(server)
                        else old(server).(crm := Patched(old(server).crm, lead, values, stage))
      ensures ok <==> faults.patch == Answered
    {
      if faults.patch != Dropped {
        server := server.(crm := Patched(server.crm, lead, values, stage));
      }
      ok := faults.patch == Answered;
    }
  }

  class HandoffRunner {
    const client: CrmClient
    const mapping: Mapping

    constructor (client: CrmClient, mapping: Mapping)
      ensures this.client == client && this.mapping == mapping
    {
      this.client := client;
      this.mapping := mapping;
    }

    method FindOrCreate(phone: string) returns (target: Option<Target>)
      modifies client`server
      ensures Resolving(client.server, target) ==
              ResolveLead(mapping, old(client.server), phone, client.found, client.faults)
    {
      var matches := client.FindContactByPhone(phone);
      if matches.None? {
        return None;
      }
      match Resolve(matches.value)
      case Reuse(l, c) =>
        return Some(Target(l, c, false));
      case CreateOn(c) =>
        var crm := client.server.crm;
        target := client.CreateLead(WithLead(crm, c, mapping.defaultStage), Target(crm.nextId, c, true));
      case CreateBoth =>
        var crm := client.server.crm;
        target := client.CreateLead(WithBoth(crm, phone, mapping.defaultStage), Target(crm.nextId + 1, crm.nextId, true));
    }

    method Execute(request: Request) returns (result: Option<RunResult>)
      requires ExactSearch(client.server.crm, request.phone, client.found) && HasAllIds(mapping.tables)
      modifies client`server
      ensures Ran(client.server, result) == Run(mapping, old(client.server), request, client.found, client.faults)
    {
      ResolveIsExact(client.server.crm, request.phone, client.found);
      var resolved := FindOrCreate(request.phone);
      if resolved.None? {
        return None;
      }
      var target := resolved.value;
      var noted := client.AddNote(PostedNote(target.lead, request.reason, request.pending));
      if !noted {
        return None;
      }
      var values := BuildCustomFieldsValues(mapping.tables, request.slots);
      var stage := Some(mapping.StageFor(request.reason));
      if !target.isNew {
        var status := client.GetLead(target.lead);
        if status.None? {
          return None;
        }
        if !ShouldMove(mapping, false, status.value, request.reason) {
          stage := None;
        }
      }
      var updated := client.UpdateLead(target.lead, values, stage);
      result := if updated then Some(RunResult(target.lead, target.contact)) else None;
    }
  }
}
