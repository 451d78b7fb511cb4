/** Retrying a handoff: however often it failed half-way, the next clean run leaves the CRM as
    one clean run would have, and the stage of a lead only moves forward. */
module RetryTransparency {
  import opened Prelude
  import opened Conversations
  import opened LeadPayload
  import opened Crm
  import opened HandoffRuns

  datatype Attempt = Attempt(matches: seq<Match>, faults: Faults)

  // ---- The three states a handoff can leave the CRM in ----

  /** The CRM once the lead to work on exists. */
  function Created(mapping: Mapping, crm: Crm, phone: string, r: Resolution): Crm {
    match r
    case Reuse(_, _) => crm
    case CreateOn(c) => WithLead(crm, c, mapping.defaultStage)
    case CreateBoth => WithBoth(crm, phone, mapping.defaultStage)
  }

  function TargetOf(crm: Crm, r: Resolution): Target {
    match r
    case Reuse(l, c) => Target(l, c, false)
    case CreateOn(c) => Target(crm.nextId, c, true)
    case CreateBoth => Target(crm.nextId + 1, crm.nextId, true)
  }

  /** The CRM after one clean run. */
  function Published(mapping: Mapping, crm: Crm, request: Request, r: Resolution): Crm
    requires IsResolution(crm, request.phone, r) && HasAllIds(mapping.tables)
  {
    PatchedFor(mapping, Created(mapping, crm, request.phone, r), TargetOf(crm, r), request)
  }

  predicate Clean(faults: Faults) {
    faults == NO_FAULTS
  }

  /** Finding or creating a target leaves the CRM as it was, or with the target in it. */
  lemma ResolveOutcome(mapping: Mapping, server: Server, phone: string, matches: seq<Match>, faults: Faults)
    requires ExactSearch(server.crm, phone, matches)
    ensures var got, r := ResolveLead(mapping, server, phone, matches, faults), Resolve(matches);
            && got.server.notes == server.notes
            && got.server.crm in {server.crm, Created(mapping, server.crm, phone, r)}
            && (got.target.Some? ==> got.server.crm == Created(mapping, server.crm, phone, r) && got.target.value == TargetOf(server.crm, r))
            && (Clean(faults) ==> got.target.Some?)
  {
    ResolveIsExact(server.crm, phone, matches);
  }

  /** Publishing posts at most one note, and patches after it. */
  lemma PublishOutcome(mapping: Mapping, server: Server, target: Target, request: Request, faults: Faults)
    requires target.lead in server.crm.leads && HasAllIds(mapping.tables)
    ensures var ran := Publish(mapping, server, target, request, faults);
            var noted := server.notes + [PostedNote(target.lead, request.reason, request.pending)];
            && ran.server.notes in {server.notes, noted}
            && ran.server.crm in {server.crm, PatchedFor(mapping, server.crm, target, request)}
            && (ran.server.crm != server.crm || ran.result.Some? ==> ran.server.notes == noted && faults.note == Answered)
            && (ran.result.Some? ==> ran.server.crm == PatchedFor(mapping, server.crm, target, request)
                                     && ran.result.value == RunResult(target.lead, target.contact))
            && (Clean(faults) ==> ran.result.Some?)
  {
  }

  /** One attempt, whatever fails in it, leaves one of three CRMs; a clean one leaves the
      published one and returns the target. At most one note is posted, and before the PATCH. */
  lemma AttemptOutcome(mapping: Mapping, server: Server, request: Request, a: Attempt, r: Resolution)
    requires HasAllIds(mapping.tables) && ExactSearch(server.crm, request.phone, a.matches)
    requires IsResolution(server.crm, request.phone, r)
    ensures var ran := Run(mapping, server, request, a.matches, a.faults);
            var target := TargetOf(server.crm, r);
            && ran.server.crm in {server.crm, Created(mapping, server.crm, request.phone, r), Published(mapping, server.crm, request, r)}
            && (ran.server.notes == server.notes
                || ran.server.notes == server.notes + [PostedNote(target.lead, request.reason, request.pending)])
            && (ran.result.Some? ==> ran.server.crm == Published(mapping, server.crm, request, r)
                                     && ran.result.value == RunResult(target.lead, target.contact)
                                     && ran.server.notes != server.notes)
            && (Clean(a.faults) ==> ran.result.Some?)
            && (ran.server.notes == server.notes ==>
                  ran.server.crm in {server.crm, Created(mapping, server.crm, request.phone, r)})
  {
    ResolveIsExact(server.crm, request.phone, a.matches);
    ResolutionUnique(server.crm, request.phone, r, Resolve(a.matches));
    ResolveOutcome(mapping, server, request.phone, a.matches, a.faults);
    var got := ResolveLead(mapping, server, request.phone, a.matches, a.faults);
    if got.target.Some? {
      PublishOutcome(mapping, got.server, got.target.value, request, a.faults);
    }
  }

  lemma CreatedIsValid(mapping: Mapping, crm: Crm, phone: string, r: Resolution)
    requires ValidCrm(crm) && IsResolution(crm, phone, r)
    ensures ValidCrm(Created(mapping, crm, phone, r))
    ensures var t := TargetOf(crm, r); IsResolution(Created(mapping, crm, phone, r), phone, Reuse(t.lead, t.contact))
    ensures |Created(mapping, crm, phone, r).leads| <= |crm.leads| + 1
    ensures |Created(mapping, crm, phone, r).contacts| <= |crm.contacts| + 1
  {
    var created, t := Created(mapping, crm, phone, r), TargetOf(crm, r);
    forall k | LeadOfPhone(created, phone, k) ensures k <= t.lead {
      if k != t.lead {
        assert LeadOfPhone(crm, phone, k);
      }
    }
  }

  lemma PublishedIsValid(mapping: Mapping, crm: Crm, request: Request, r: Resolution)
    requires ValidCrm(crm) && IsResolution(crm, request.phone, r) && HasAllIds(mapping.tables)
    ensures ValidCrm(Published(mapping, crm, request, r))
    ensures var t := TargetOf(crm, r); IsResolution(Published(mapping, crm, request, r), request.phone, Reuse(t.lead, t.contact))
    ensures Published(mapping, crm, request, r).leads.Keys == Created(mapping, crm, request.phone, r).leads.Keys
    ensures Published(mapping, crm, request, r).contacts == Created(mapping, crm, request.phone, r).contacts
  {
    var created, t := Created(mapping, crm, request.phone, r), TargetOf(crm, r);
    CreatedIsValid(mapping, crm, request.phone, r);
    PatchKeepsResolution(created, request.phone, t.lead, t.contact,
                         CustomFields(mapping.tables, request.slots), StageToSet(mapping, created, t, request.reason));
  }

  lemma PatchKeepsResolution(crm: Crm, phone: string, l: int, c: int, values: seq<FieldValue>, stage: Option<int>)
    requires ValidCrm(crm) && IsResolution(crm, phone, Reuse(l, c))
    ensures ValidCrm(Patched(crm, l, values, stage))
    ensures IsResolution(Patched(crm, l, values, stage), phone, Reuse(l, c))
    ensures Patched(crm, l, values, stage).leads.Keys == crm.leads.Keys
  {
    var after := Patched(crm, l, values, stage);
    forall k | LeadOfPhone(after, phone, k) ensures k <= l {
      assert LeadOfPhone(crm, phone, k);
    }
  }

  /** A lead the bot creates can be re-published by a retry: its first stage is the target
      already, or stands before it in the funnel. */
  predicate Republishable(mapping: Mapping, reason: HandoffReason) {
    || mapping.defaultStage == mapping.StageFor(reason)
    || (&& mapping.defaultStage in mapping.sort && mapping.StageFor(reason) in mapping.sort
        && mapping.sort[mapping.defaultStage] <= mapping.sort[mapping.StageFor(reason)])
  }

  /** From the created or the published CRM, publishing again leads to the published one. */
  lemma PublishingAgain(mapping: Mapping, crm: Crm, request: Request, r: Resolution)
    requires ValidCrm(crm) && IsResolution(crm, request.phone, r) && HasAllIds(mapping.tables)
    requires r.Reuse? || Republishable(mapping, request.reason)
    ensures var t := TargetOf(crm, r);
            var again := t.(isNew := false);
            && t.lead in Created(mapping, crm, request.phone, r).leads
            && PatchedFor(mapping, Created(mapping, crm, request.phone, r), again, request) == Published(mapping, crm, request, r)
            && t.lead in Published(mapping, crm, request, r).leads
            && PatchedFor(mapping, Published(mapping, crm, request, r), again, request) == Published(mapping, crm, request, r)
  {
    var created, t := Created(mapping, crm, request.phone, r), TargetOf(crm, r);
    var values := CustomFields(mapping.tables, request.slots);
    var published := Published(mapping, crm, request, r);
    var stage := StageToSet(mapping, created, t, request.reason);
    PatchedTwice(created, t.lead, values, stage);
    if stage.Some? {
      assert published.leads[t.lead].status == Some(mapping.StageFor(request.reason));
      SameStagePatch(published, t.lead, values, mapping.StageFor(request.reason));
      SameStagePatch(created, t.lead, values, mapping.StageFor(request.reason));
    }
  }

  /** Re-sending the stage a lead already has is the same as sending no stage. */
  lemma SameStagePatch(crm: Crm, l: int, values: seq<FieldValue>, stage: int)
    requires l in crm.leads
    ensures crm.leads[l].status == Some(stage) ==> Patched(crm, l, values, Some(stage)) == Patched(crm, l, values, None)
  {
  }

  // ---- Histories of attempts ----

  function AfterAttempt(mapping: Mapping, server: Server, request: Request, a: Attempt): Server
    requires HasAllIds(mapping.tables) && ExactSearch(server.crm, request.phone, a.matches)
  {
    Run(mapping, server, request, a.matches, a.faults).server
  }

  /** `servers` is a history of attempts with the same request, each search being exact. */
  ghost predicate History(mapping: Mapping, request: Request, servers: seq<Server>, attempts: seq<Attempt>) {
    && HasAllIds(mapping.tables)
    && |servers| == |attempts| + 1
    && forall i :: 0 <= i < |attempts| ==>
         && ExactSearch(servers[i].crm, request.phone, attempts[i].matches)
         && servers[i + 1] == AfterAttempt(mapping, servers[i], request, attempts[i])
  }

  /** The CRM is still untouched, or holds the created lead, or is already published. */
  ghost predicate OnTheWay(mapping: Mapping, crm: Crm, request: Request, r: Resolution, now: Crm)
    requires IsResolution(crm, request.phone, r) && HasAllIds(mapping.tables)
  {
    now in {crm, Created(mapping, crm, request.phone, r), Published(mapping, crm, request, r)}
  }

  lemma OneMoreAttempt(mapping: Mapping, crm: Crm, request: Request, r: Resolution, server: Server, a: Attempt)
    requires ValidCrm(crm) && IsResolution(crm, request.phone, r) && HasAllIds(mapping.tables)
    requires r.Reuse? || Republishable(mapping, request.reason)
    requires OnTheWay(mapping, crm, request, r, server.crm)
    requires ExactSearch(server.crm, request.phone, a.matches)
    ensures var ran := Run(mapping, server, request, a.matches, a.faults);
            && OnTheWay(mapping, crm, request, r, ran.server.crm)
            && |ran.server.notes| <= |server.notes| + 1
            && (ran.result.Some? ==>
                  && ran.server.crm == Published(mapping, crm, request, r)
                  && ran.result.value == RunResult(TargetOf(crm, r).lead, TargetOf(crm, r).contact))
            && (Clean(a.faults) ==> ran.result.Some?)
  {
    if server.crm == crm {
      AttemptOutcome(mapping, server, request, a, r);
    } else {
      var t := TargetOf(crm, r);
      CreatedIsValid(mapping, crm, request.phone, r);
      PublishedIsValid(mapping, crm, request, r);
      PublishingAgain(mapping, crm, request, r);
      AttemptOutcome(mapping, server, request, a, Reuse(t.lead, t.contact));
    }
  }

  lemma {:induction false} AttemptsStayOnTheWay(mapping: Mapping, request: Request, r: Resolution, servers: seq<Server>, attempts: seq<Attempt>)
    requires History(mapping, request, servers, attempts)
    requires ValidCrm(servers[0].crm) && IsResolution(servers[0].crm, request.phone, r)
    requires r.Reuse? || Republishable(mapping, request.reason)
    ensures OnTheWay(mapping, servers[0].crm, request, r, servers[|attempts|].crm)
    ensures |servers[|attempts|].notes| <= |servers[0].notes| + |attempts|
  {
    if attempts != [] {
      var n := |attempts| - 1;
      AttemptsStayOnTheWay(mapping, request, r, servers[..n + 1], attempts[..n]);
      OneMoreAttempt(mapping, servers[0].crm, request, r, servers[n], attempts[n]);
    }
  }

  /** Retry transparency: after any attempts, failing anywhere, a clean run returns the lead
      and contact that a clean run at the start would have returned, and leaves the same
      contacts, leads, stages and fields. At most one lead and one contact were created,
      and each attempt posted at most one note. */
  lemma RetryIsTransparent(mapping: Mapping, request: Request, servers: seq<Server>, attempts: seq<Attempt>, first: Attempt, final: Attempt)
    requires History(mapping, request, servers, attempts)
    requires ValidCrm(servers[0].crm)
    requires HasLead(servers[0].crm, request.phone) || Republishable(mapping, request.reason)
    requires Clean(first.faults) && ExactSearch(servers[0].crm, request.phone, first.matches)
    requires Clean(final.faults) && ExactSearch(servers[|attempts|].crm, request.phone, final.matches)
    ensures var once := Run(mapping, servers[0], request, first.matches, first.faults);
            var retried := Run(mapping, servers[|attempts|], request, final.matches, final.faults);
            && once.result.Some? && retried.result == once.result
            && retried.server.crm == once.server.crm
            && |retried.server.crm.leads| <= |servers[0].crm.leads| + 1
            && |retried.server.crm.contacts| <= |servers[0].crm.contacts| + 1
            && |retried.server.notes| <= |servers[0].notes| + |attempts| + 1
  {
    var crm, r := servers[0].crm, Resolve(first.matches);
    ResolveIsExact(crm, request.phone, first.matches);
    AttemptsStayOnTheWay(mapping, request, r, servers, attempts);
    OneMoreAttempt(mapping, crm, request, r, servers[0], first);
    OneMoreAttempt(mapping, crm, request, r, servers[|attempts|], final);
    CreatedIsValid(mapping, crm, request.phone, r);
    PublishedIsValid(mapping, crm, request, r);
    SameKeysSameSize(Published(mapping, crm, request, r).leads, Created(mapping, crm, request.phone, r).leads);
  }

  lemma SameKeysSameSize<V>(a: map<int, V>, b: map<int, V>)
    requires a.Keys == b.Keys
    ensures |a| == |b|
  {
    assert |a| == |a.Keys| && |b| == |b.Keys|;
  }

  /** The hypothesis on the funnel is exactly what is needed: one attempt that created the
      lead and then failed to post its note is transparent if and only if it holds. */
  lemma LostNoteIsTransparentExactly(mapping: Mapping, request: Request, server: Server, first: Attempt, failing: Attempt, final: Attempt)
    requires HasAllIds(mapping.tables) && ValidCrm(server.crm) && !HasLead(server.crm, request.phone)
    requires ExactSearch(server.crm, request.phone, first.matches) && Clean(first.faults)
    requires ExactSearch(server.crm, request.phone, failing.matches) && failing.faults == NO_FAULTS.(note := Dropped)
    requires ExactSearch(AfterAttempt(mapping, server, request, failing).crm, request.phone, final.matches) && Clean(final.faults)
    ensures Run(mapping, AfterAttempt(mapping, server, request, failing), request, final.matches, final.faults).server.crm
            == Run(mapping, server, request, first.matches, first.faults).server.crm
            <==> Republishable(mapping, request.reason)
  {
    var crm, r := server.crm, Resolve(first.matches);
    ResolveIsExact(crm, request.phone, first.matches);
    ResolveIsExact(crm, request.phone, failing.matches);
    ResolutionUnique(crm, request.phone, r, Resolve(failing.matches));
    assert !r.Reuse?;
    AttemptOutcome(mapping, server, request, first, r);
    var t := TargetOf(crm, r);
    var created := Created(mapping, crm, request.phone, r);
    CreatedIsValid(mapping, crm, request.phone, r);
    var failed := AfterAttempt(mapping, server, request, failing);
    assert failed.crm == created;
    AttemptOutcome(mapping, failed, request, final, Reuse(t.lead, t.contact));
    assert Published(mapping, crm, request, r).leads[t.lead].status == Some(mapping.StageFor(request.reason));
    if Republishable(mapping, request.reason) {
      PublishingAgain(mapping, crm, request, r);
    } else {
      assert Published(mapping, created, request, Reuse(t.lead, t.contact)).leads[t.lead].status == Some(mapping.defaultStage);
    }
  }

  // ---- Forward-only stages ----

  /** One run over the phone's existing lead, for any reason. */
  datatype Handoff = Handoff(request: Request, attempt: Attempt)

  ghost predicate Runs(mapping: Mapping, phone: string, servers: seq<Server>, handoffs: seq<Handoff>) {
    && HasAllIds(mapping.tables)
    && |servers| == |handoffs| + 1
    && forall i :: 0 <= i < |handoffs| ==>
         && handoffs[i].request.phone == phone
         && ExactSearch(servers[i].crm, phone, handoffs[i].attempt.matches)
         && servers[i + 1] == AfterAttempt(mapping, servers[i], handoffs[i].request, handoffs[i].attempt)
  }

  /** The run got as far as a PATCH that the server applied. */
  predicate PatchReached(faults: Faults) {
    faults.find == Answered && faults.note == Answered && faults.read == Answered && faults.patch != Dropped
  }

  function Max(a: int, b: int): int {
    if a >= b then a else b
  }

  /** The furthest stage among the start and the targets of the runs that were applied. */
  function Furthest(mapping: Mapping, start: int, handoffs: seq<Handoff>): int {
    if handoffs == [] then start
    else
      var before := Furthest(mapping, start, handoffs[..|handoffs| - 1]);
      var last := handoffs[|handoffs| - 1];
      var stage := mapping.StageFor(last.request.reason);
      if PatchReached(last.attempt.faults) && stage in mapping.sort then Max(before, mapping.sort[stage]) else before
  }

  /** The lead stands in a stage the funnel knows, at that place of its order. */
  predicate StandsAt(mapping: Mapping, crm: Crm, l: int, place: int) {
    l in crm.leads && crm.leads[l].status.Some? && crm.leads[l].status.value in mapping.sort
    && mapping.sort[crm.leads[l].status.value] == place
  }

  predicate OffTheMap(mapping: Mapping, crm: Crm, l: int) {
    l in crm.leads && (crm.leads[l].status.None? || crm.leads[l].status.value !in mapping.sort)
  }

  /** A run on a lead that exists leaves the CRM as it was, or patched. */
  lemma RunOnReused(mapping: Mapping, server: Server, h: Handoff, l: int, c: int)
    requires HasAllIds(mapping.tables) && ExactSearch(server.crm, h.request.phone, h.attempt.matches)
    requires Resolve(h.attempt.matches) == Reuse(l, c) && l in server.crm.leads
    ensures AfterAttempt(mapping, server, h.request, h.attempt).crm ==
            if PatchReached(h.attempt.faults) then PatchedFor(mapping, server.crm, Target(l, c, false), h.request) else server.crm
  {
  }

  lemma OnlyOnePatched(crm: Crm, l: int, values: seq<FieldValue>, stage: Option<int>)
    requires l in crm.leads
    ensures var after := Patched(crm, l, values, stage);
            && after.leads.Keys == crm.leads.Keys && after.contacts == crm.contacts
            && (forall k :: k in after.leads && k != l ==> after.leads[k] == crm.leads[k])
            && after.leads[l].status == if stage.Some? then stage else crm.leads[l].status
  {
  }

  lemma RunOnExisting(mapping: Mapping, server: Server, h: Handoff, l: int, c: int)
    requires HasAllIds(mapping.tables) && ValidCrm(server.crm)
    requires ExactSearch(server.crm, h.request.phone, h.attempt.matches)
    requires IsResolution(server.crm, h.request.phone, Reuse(l, c))
    ensures var after := AfterAttempt(mapping, server, h.request, h.attempt).crm;
            && ValidCrm(after) && IsResolution(after, h.request.phone, Reuse(l, c))
            && after.leads.Keys == server.crm.leads.Keys && after.contacts == server.crm.contacts
            && (forall k :: k in after.leads && k != l ==> after.leads[k] == server.crm.leads[k])
            && after.leads[l].status ==
               (if PatchReached(h.attempt.faults) && ShouldMove(mapping, false, server.crm.leads[l].status, h.request.reason)
                then Some(mapping.StageFor(h.request.reason)) else server.crm.leads[l].status)
  {
    ResolveIsExact(server.crm, h.request.phone, h.attempt.matches);
    ResolutionUnique(server.crm, h.request.phone, Reuse(l, c), Resolve(h.attempt.matches));
    RunOnReused(mapping, server, h, l, c);
    var values := CustomFields(mapping.tables, h.request.slots);
    var stage := StageToSet(mapping, server.crm, Target(l, c, false), h.request.reason);
    PatchKeepsResolution(server.crm, h.request.phone, l, c, values, stage);
    OnlyOnePatched(server.crm, l, values, stage);
  }

  /** Over any runs for any reasons, failing or not, a lead on the map ends at the furthest
      of its own stage and the stages the applied runs targeted: it never moves back. */
  lemma {:induction false} StageOnlyMovesForward(mapping: Mapping, phone: string, servers: seq<Server>, handoffs: seq<Handoff>, l: int, c: int, start: int)
    requires Runs(mapping, phone, servers, handoffs)
    requires ValidCrm(servers[0].crm) && IsResolution(servers[0].crm, phone, Reuse(l, c))
    requires StandsAt(mapping, servers[0].crm, l, start)
    ensures var n := |handoffs|;
            && ValidCrm(servers[n].crm) && IsResolution(servers[n].crm, phone, Reuse(l, c))
            && StandsAt(mapping, servers[n].crm, l, Furthest(mapping, start, handoffs))
            && Furthest(mapping, start, handoffs) >= start
  {
    if handoffs != [] {
      var n := |handoffs| - 1;
      StageOnlyMovesForward(mapping, phone, servers[..n + 1], handoffs[..n], l, c, start);
      RunOnExisting(mapping, servers[n], handoffs[n], l, c);
    }
  }

  /** A lead whose stage is off the map is never moved. */
  lemma {:induction false} OffMapNeverMoves(mapping: Mapping, phone: string, servers: seq<Server>, handoffs: seq<Handoff>, l: int, c: int)
    requires Runs(mapping, phone, servers, handoffs)
    requires ValidCrm(servers[0].crm) && IsResolution(servers[0].crm, phone, Reuse(l, c))
    requires OffTheMap(mapping, servers[0].crm, l)
    ensures var n := |handoffs|;
            && ValidCrm(servers[n].crm) && IsResolution(servers[n].crm, phone, Reuse(l, c))
            && servers[n].crm.leads[l].status == servers[0].crm.leads[l].status
  {
    if handoffs != [] {
      var n := |handoffs| - 1;
      OffMapNeverMoves(mapping, phone, servers[..n + 1], handoffs[..n], l, c);
      RunOnExisting(mapping, servers[n], handoffs[n], l, c);
    }
  }

  lemma CreatedLeavesLeads(mapping: Mapping, crm: Crm, phone: string, r: Resolution, k: int)
    requires ValidCrm(crm) && k in crm.leads
    ensures k in Created(mapping, crm, phone, r).leads && Created(mapping, crm, phone, r).leads[k] == crm.leads[k]
  {
  }

  /** A run that changed the stage of any lead had posted its note on that lead. */
  lemma NoteBeforeStage(mapping: Mapping, server: Server, request: Request, a: Attempt, k: int)
    requires HasAllIds(mapping.tables) && ValidCrm(server.crm)
    requires ExactSearch(server.crm, request.phone, a.matches)
    requires k in server.crm.leads
    ensures var after := AfterAttempt(mapping, server, request, a);
            && k in after.crm.leads
            && (after.crm.leads[k] != server.crm.leads[k] ==>
                  a.faults.note == Answered
                  && after.notes == server.notes + [PostedNote(k, request.reason, request.pending)])
  {
    ResolveIsExact(server.crm, request.phone, a.matches);
    var r := Resolve(a.matches);
    ResolveOutcome(mapping, server, request.phone, a.matches, a.faults);
    CreatedLeavesLeads(mapping, server.crm, request.phone, r, k);
    var got := ResolveLead(mapping, server, request.phone, a.matches, a.faults);
    if got.target.Some? {
      PublishOutcome(mapping, got.server, got.target.value, request, a.faults);
    }
  }

  // ---- What a clean run delivers ----

  /** The fields hold the values, and every other field is as it was. */
  ghost predicate FieldsHold(values: seq<FieldValue>, before: map<int, string>, after: map<int, string>) {
    && (forall f :: f in values ==> f.fieldId in after && after[f.fieldId] == f.text)
    && (forall id :: (forall f :: f in values ==> f.fieldId != id) ==>
          (id in after <==> id in before) && (id in before ==> after[id] == before[id]))
  }

  lemma PatchedFieldsHold(values: seq<FieldValue>, before: map<int, string>)
    requires DistinctIds(values)
    ensures FieldsHold(values, before, before + AsMap(values))
  {
    forall f | f in values ensures f.fieldId in AsMap(values) && AsMap(values)[f.fieldId] == f.text {
      AsMapHolds(values, f.fieldId, f.text);
    }
    forall id | forall f :: f in values ==> f.fieldId != id ensures id !in AsMap(values) {
      AsMapHolds(values, id, "");
      assert forall i :: 0 <= i < |values| ==> values[i] in values;
    }
  }

  /** A lead as a clean run leaves it. */
  ghost predicate Delivered(mapping: Mapping, request: Request, isNew: bool, before: Lead, after: Lead)
    requires HasAllIds(mapping.tables)
  {
    && after.contact == before.contact
    && FieldsHold(CustomFields(mapping.tables, request.slots), before.fields, after.fields)
    && after.status == if ShouldMove(mapping, isNew, before.status, request.reason)
                       then Some(mapping.StageFor(request.reason)) else before.status
  }

  lemma PatchDelivers(mapping: Mapping, crm: Crm, target: Target, request: Request)
    requires HasAllIds(mapping.tables) && InjectiveIds(mapping.tables) && target.lead in crm.leads
    ensures var after := PatchedFor(mapping, crm, target, request);
            && target.lead in after.leads && after.contacts == crm.contacts
            && Delivered(mapping, request, target.isNew, crm.leads[target.lead], after.leads[target.lead])
            && forall k :: k in crm.leads && k != target.lead ==> k in after.leads && after.leads[k] == crm.leads[k]
  {
    var values := CustomFields(mapping.tables, request.slots);
    FieldIdsDistinct(mapping.tables, request.slots, |mapping.tables.concepts|);
    PatchedFieldsHold(values, crm.leads[target.lead].fields);
  }

  /** A clean run posts its note, with the reason and what was given up on, to the lead it returns,
      and leaves that lead with every captured field and in the stage of the reason: always if it
      has just created it, and otherwise unless it stands further on or off the map. */
  lemma CleanRunDelivers(mapping: Mapping, server: Server, request: Request, matches: seq<Match>)
    requires HasAllIds(mapping.tables) && InjectiveIds(mapping.tables) && ValidCrm(server.crm)
    requires ExactSearch(server.crm, request.phone, matches)
    ensures var ran := Run(mapping, server, request, matches, NO_FAULTS);
            var created := Created(mapping, server.crm, request.phone, Resolve(matches));
            && ran.result.Some?
            && var l := ran.result.value.lead;
               && LeadOfPhone(ran.server.crm, request.phone, l) && ran.server.crm.leads[l].contact == ran.result.value.contact
               && ran.server.notes == server.notes + [PostedNote(l, request.reason, request.pending)]
               && l in created.leads
               && Delivered(mapping, request, l !in server.crm.leads, created.leads[l], ran.server.crm.leads[l])
               && forall k :: k in server.crm.leads && k != l ==> k in ran.server.crm.leads && ran.server.crm.leads[k] == server.crm.leads[k]
  {
    ResolveIsExact(server.crm, request.phone, matches);
    var r := Resolve(matches);
    var created, target := Created(mapping, server.crm, request.phone, r), TargetOf(server.crm, r);
    AttemptOutcome(mapping, server, request, Attempt(matches, NO_FAULTS), r);
    PublishedIsValid(mapping, server.crm, request, r);
    PatchDelivers(mapping, created, target, request);
  }

  /** The Top Viajes funnel. */
  function TopViajes(tables: FieldTables, defaultStage: int): Mapping {
    Mapping(tables,
            map[107559931 := 10, 107566779 := 20, 107566783 := 30, 107566787 := 40, 142 := 10000, 143 := 11000],
            107566779, 107566783, 107566783, 107566787, defaultStage)
  }

  /** A lead it knows moves to "qualified" from the two first stages, to "one to one" from the three
      first, whether the bot got stuck or a person was asked for, and to "no answer" from the four
      first; a lead won or lost, or in a stage it does not know, is never moved. */
  lemma TopViajesMoves(tables: FieldTables, defaultStage: int, stage: int, reason: HandoffReason)
    ensures var mapping := TopViajes(tables, defaultStage);
            && mapping.StageFor(reason) == (match reason
                case Complete => 107566779
                case Stuck => 107566783
                case HumanRequested => 107566783
                case NoResponse => 107566787)
            && (ShouldMove(mapping, false, Some(stage), reason) <==> match reason
                case Complete => stage in {107559931, 107566779}
                case Stuck => stage in {107559931, 107566779, 107566783}
                case HumanRequested => stage in {107559931, 107566779, 107566783}
                case NoResponse => stage in {107559931, 107566779, 107566783, 107566787})
            && !ShouldMove(mapping, false, None, reason)
  {
  }

  /** Its retries are transparent for every reason exactly when new leads start in one of
      its first two stages. */
  lemma TopViajesRepublishes(tables: FieldTables, defaultStage: int)
    ensures (forall reason :: Republishable(TopViajes(tables, defaultStage), reason)) <==> defaultStage in {107559931, 107566779}
  {
    var mapping := TopViajes(tables, defaultStage);
    assert Republishable(mapping, Complete) <==> defaultStage in {107559931, 107566779};
  }
}
