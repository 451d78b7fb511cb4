/** The handoff methods against the protocol: what they do is a run of the state machine in
    which nobody else moves. */
module HandoffRefinement {
  import opened LeadPayload
  import opened Leases
  import opened ProtocolState
  import opened Protocol
  import opened Alone
  import opened HandoffFlow

  lemma ResolvedIsReached(cfg: Config, t: Token, k: Moved, sh: Shared, p: Proc, find: Oracle, create: Oracle)
    requires HasAllIds(cfg.mapping.tables) && Reaches(cfg, t, k, Moved(sh, p)) && p.pc == Finding
    ensures Reaches(cfg, t, k, Resolved(cfg, sh, p, find, create))
  {
    var m := Find(sh, p, find);
    ReachesNext(cfg, t, k, Moved(sh, p), find, m);
    if m.p.pc == Creating {
      ReachesNext(cfg, t, k, m, create, Create(cfg, m.sh, m.p, create));
    }
  }

  lemma NotedIsReached(cfg: Config, t: Token, k: Moved, sh: Shared, p: Proc, note: Oracle, read: Oracle)
    requires HasAllIds(cfg.mapping.tables) && Reaches(cfg, t, k, Moved(sh, p)) && p.pc == Noting
    ensures Reaches(cfg, t, k, Noted(cfg, sh, p, note, read))
  {
    var m := PostNote(cfg, sh, p, note);
    ReachesNext(cfg, t, k, Moved(sh, p), note, m);
    if m.p.pc == ReadingStage {
      ReachesNext(cfg, t, k, m, read, ReadStage(cfg, m.sh, m.p, read));
    }
  }

  lemma PatchIsReached(cfg: Config, t: Token, k: Moved, m: Moved, o: Oracle)
    requires HasAllIds(cfg.mapping.tables) && Reaches(cfg, t, k, m) && m.p.pc == Patching
    ensures Reaches(cfg, t, k, Patch(cfg, m.sh, m.p, o))
  {
    ReachesNext(cfg, t, k, m, o, Patch(cfg, m.sh, m.p, o));
  }

  lemma PublishedIsReached(cfg: Config, t: Token, k: Moved, sh: Shared, p: Proc, note: Oracle, read: Oracle, patch: Oracle)
    requires HasAllIds(cfg.mapping.tables) && Reaches(cfg, t, k, Moved(sh, p)) && p.pc == Noting
    ensures Reaches(cfg, t, k, PublishedBy(cfg, sh, p, note, read, patch))
  {
    NotedIsReached(cfg, t, k, sh, p, note, read);
    var m := Noted(cfg, sh, p, note, read);
    if m.p.pc == Patching {
      PatchIsReached(cfg, t, k, m, patch);
    }
  }

  lemma RunIsReached(
    cfg: Config, t: Token, k: Moved, sh: Shared, p: Proc, find: Oracle, create: Oracle, note: Oracle, read: Oracle, patch: Oracle)
    requires HasAllIds(cfg.mapping.tables) && Reaches(cfg, t, k, Moved(sh, p)) && p.pc == Finding
    ensures Reaches(cfg, t, k, RunBy(cfg, sh, p, find, create, note, read, patch))
  {
    ResolvedIsReached(cfg, t, k, sh, p, find, create);
    var m := Resolved(cfg, sh, p, find, create);
    if m.p.pc == Noting {
      PublishedIsReached(cfg, t, k, m.sh, m.p, note, read, patch);
    }
  }

  lemma MarkerIsReached(cfg: Config, t: Token, k: Moved, m: Moved, o: Oracle)
    requires HasAllIds(cfg.mapping.tables) && Reaches(cfg, t, k, m) && m.p.pc == SavingMarker
    ensures Reaches(cfg, t, k, SaveMarker(m.sh, m.p, o))
  {
    ReachesNext(cfg, t, k, m, o, SaveMarker(m.sh, m.p, o));
  }

  lemma MarkIsReached(cfg: Config, t: Token, k: Moved, sh: Shared, p: Proc, answers: nat -> Oracle, at: nat)
    requires HasAllIds(cfg.mapping.tables) && Reaches(cfg, t, k, Moved(sh, p)) && p.pc == Finding
    ensures Reaches(cfg, t, k, MarkBy(cfg, sh, p, answers, at))
  {
    var note := answers(NoteAt(answers, at));
    RunIsReached(cfg, t, k, sh, p, answers(at), answers(at + 1), note, answers(at + 2), answers(at + 3));
    var ran := RunFrom(cfg, sh, p, answers, at);
    if ran.p.pc == SavingMarker {
      MarkerIsReached(cfg, t, k, ran, answers(at + 4));
    }
  }

  lemma EnsureChatIsReached(cfg: Config, t: Token, k: Moved, sh: Shared, p: Proc, answers: nat -> Oracle, at: nat)
    requires HasAllIds(cfg.mapping.tables) && Reaches(cfg, t, k, Moved(sh, p))
    ensures Reaches(cfg, t, k, EnsureChatBy(sh, p, answers, at))
  {
    if p.pc == CreatingChat {
      var created := CreateChat(sh, p, answers(at));
      ReachesNext(cfg, t, k, Moved(sh, p), answers(at), created);
      if created.p.pc == SavingChat {
        ReachesNext(cfg, t, k, created, answers(at + 1), SaveChat(created.sh, created.p, answers(at + 1)));
      }
    }
  }

  lemma FlagIsReached(cfg: Config, t: Token, k: Moved, m: Moved, o: Oracle)
    requires HasAllIds(cfg.mapping.tables) && Reaches(cfg, t, k, m) && m.p.pc == SettingFlag
    ensures Reaches(cfg, t, k, SetFlag(m.sh, m.p, o))
  {
    ReachesNext(cfg, t, k, m, o, SetFlag(m.sh, m.p, o));
  }

  lemma FlipIsReached(cfg: Config, t: Token, k: Moved, sh: Shared, p: Proc, answers: nat -> Oracle, at: nat)
    requires HasAllIds(cfg.mapping.tables) && Reaches(cfg, t, k, Moved(sh, p)) && p.pc == SavingFlip
    ensures Reaches(cfg, t, k, FlipBy(sh, p, answers, at))
  {
    var flipped := SaveFlip(sh, p, answers(at));
    ReachesNext(cfg, t, k, Moved(sh, p), answers(at), flipped);
    if flipped.p.pc == SettingFlag {
      FlagIsReached(cfg, t, k, flipped, answers(at + 1));
    }
  }

  lemma LinkIsReached(cfg: Config, t: Token, k: Moved, m: Moved, o: Oracle)
    requires HasAllIds(cfg.mapping.tables) && Reaches(cfg, t, k, m) && m.p.pc == Linking
    ensures Reaches(cfg, t, k, Link(m.sh, m.p, o))
  {
    ReachesNext(cfg, t, k, m, o, Link(m.sh, m.p, o));
  }

  lemma ChatIsReached(cfg: Config, t: Token, k: Moved, sh: Shared, p: Proc, answers: nat -> Oracle, at: nat)
    requires HasAllIds(cfg.mapping.tables) && Reaches(cfg, t, k, Moved(sh, p))
    ensures Reaches(cfg, t, k, ChatBy(sh, p, answers, at))
  {
    EnsureChatIsReached(cfg, t, k, sh, p, answers, at);
    var m := EnsureChatBy(sh, p, answers, at);
    if m.p.pc == Linking {
      LinkIsReached(cfg, t, k, m, answers(if p.pc == CreatingChat then at + 2 else at));
    }
  }

  lemma FinishIsReached(cfg: Config, t: Token, k: Moved, sh: Shared, p: Proc, answers: nat -> Oracle, at: nat)
    requires HasAllIds(cfg.mapping.tables) && Reaches(cfg, t, k, Moved(sh, p))
    ensures Reaches(cfg, t, k, FinishBy(sh, p, answers, at))
  {
    ChatIsReached(cfg, t, k, sh, p, answers, at);
    var linked := ChatBy(sh, p, answers, at);
    if linked.p.pc == SavingFlip {
      FlipIsReached(cfg, t, k, linked.sh, linked.p, answers, at + ChatAwaits(p));
    }
  }

  lemma HandoffIsReached(cfg: Config, t: Token, k: Moved, sh: Shared, p: Proc, answers: nat -> Oracle, at: nat)
    requires HasAllIds(cfg.mapping.tables) && Reaches(cfg, t, k, Moved(sh, p))
    ensures Reaches(cfg, t, k, HandoffBy(cfg, sh, p, answers, at))
  {
    if p.pc != Finding {
      FinishIsReached(cfg, t, k, sh, p, answers, at);
    } else {
      MarkIsReached(cfg, t, k, sh, p, answers, at);
      var marked := MarkBy(cfg, sh, p, answers, at);
      if marked.p.pc != Leaving {
        FinishIsReached(cfg, t, k, marked.sh, marked.p, answers, at + 5);
      }
    }
  }

  /** The silent handoff is a run of the machine from where the sweep's process stands. */
  lemma HandoffIsARun(cfg: Config, t: Token, sh: Shared, p: Proc, answers: nat -> Oracle, at: nat)
    requires HasAllIds(cfg.mapping.tables)
    ensures Reaches(cfg, t, Moved(sh, p), HandoffBy(cfg, sh, p, answers, at))
  {
    ReachesItself(cfg, t, Moved(sh, p));
    HandoffIsReached(cfg, t, Moved(sh, p), sh, p, answers, at);
  }

  /** So is the handoff that ends a turn. */
  lemma TurnHandoffIsARun(cfg: Config, t: Token, sh: Shared, p: Proc, answers: nat -> Oracle, at: nat)
    requires HasAllIds(cfg.mapping.tables) && p.pc == SavingProgress
    ensures Reaches(cfg, t, Moved(sh, p), TurnHandoffBy(cfg, sh, p, answers, at))
  {
    var k := Moved(sh, p);
    ReachesItself(cfg, t, k);
    var saved := SaveProgress(sh, p, answers(at));
    ReachesNext(cfg, t, k, k, answers(at), saved);
    if saved.p.pc != Leaving {
      HandoffIsReached(cfg, t, k, saved.sh, saved.p, answers, at + 1);
    }
  }
}
