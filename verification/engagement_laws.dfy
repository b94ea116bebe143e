/** What one engagement cycle, one auto-post and one account link do to
    the store, the activity log, the counters and the progress markers. */
module EngagementLaws {
  import opened Types
  import opened Seqs
  import opened Database
  import opened StoreLaws
  import opened ActivityLog
  import opened Automation

  /** The action a cycle records for target number `j`. */
  function PlannedAction(config: AutomationConfig, p: Platform, target: CollectedProfile, j: nat,
                         amb: Ambient, generate: Generator): ActionPerformed
  {
    NewAction(TargetDraft(config, p, target, j, generate), amb.uuid(j), amb.isoNow(j))
  }

  function PlannedActions(config: AutomationConfig, p: Platform, targets: seq<CollectedProfile>,
                          amb: Ambient, generate: Generator): seq<ActionPerformed>
  {
    seq(|targets|, j requires 0 <= j < |targets| => PlannedAction(config, p, targets[j], j, amb, generate))
  }

  lemma PlannedSnoc(config: AutomationConfig, p: Platform, targets: seq<CollectedProfile>, amb: Ambient,
                    generate: Generator)
    requires |targets| > 0
    ensures PlannedActions(config, p, targets, amb, generate) ==
            PlannedActions(config, p, targets[..|targets| - 1], amb, generate)
            + [PlannedAction(config, p, targets[|targets| - 1], |targets| - 1, amb, generate)]
  {
    var all := PlannedActions(config, p, targets, amb, generate);
    assert all == PlannedActions(config, p, targets[..|targets| - 1], amb, generate) + [all[|targets| - 1]];
  }

  /** The success entry logged for target number `k`. */
  function TargetEntry(config: AutomationConfig, p: Platform, target: CollectedProfile, k: nat, amb: Ambient): LogEntry
  {
    LogEntry(amb.clock(k + 1), TargetMessage(config.actionType, target.perfilUsuario), Success, Some(p))
  }

  function TargetEntries(config: AutomationConfig, p: Platform, targets: seq<CollectedProfile>, amb: Ambient): seq<LogEntry>
  {
    seq(|targets|, k requires 0 <= k < |targets| => TargetEntry(config, p, targets[k], k, amb))
  }

  lemma TargetEntriesSnoc(config: AutomationConfig, p: Platform, targets: seq<CollectedProfile>, amb: Ambient)
    requires |targets| > 0
    ensures TargetEntries(config, p, targets, amb) ==
            TargetEntries(config, p, targets[..|targets| - 1], amb)
            + [TargetEntry(config, p, targets[|targets| - 1], |targets| - 1, amb)]
  {
    var all := TargetEntries(config, p, targets, amb);
    assert all == TargetEntries(config, p, targets[..|targets| - 1], amb) + [all[|targets| - 1]];
  }

  /** Every entry a cycle that reaches its targets logs, oldest first. */
  function CycleEntries(config: AutomationConfig, p: Platform, account: SocialAccount,
                        targets: seq<CollectedProfile>, amb: Ambient): seq<LogEntry>
  {
    [LogEntry(amb.clock(0), StartMessage(account.username), Info, Some(p))]
    + TargetEntries(config, p, targets, amb)
    + [LogEntry(amb.clock(|targets| + 1), DoneMessage, Success, None)]
  }

  /** The store side of the target loop: one `addAction` per target. */
  function StoreLoop(s: Store, config: AutomationConfig, p: Platform, targets: seq<CollectedProfile>,
                     amb: Ambient, generate: Generator): Store
  {
    if |targets| == 0 then s
    else
      var n := |targets| - 1;
      AddAction(StoreLoop(s, config, p, targets[..n], amb, generate), TargetDraft(config, p, targets[n], n, generate),
                amb.uuid(n), amb.isoNow(n))
  }

  /** The target loop splits into a store fold and a log fold; it keeps
      the busy flag and leaves the counters matching the store. */
  lemma {:induction false} EngageAllSplits(app: App, config: AutomationConfig, p: Platform,
                                           targets: seq<CollectedProfile>, amb: Ambient, generate: Generator)
    ensures EngageAll(app, config, p, targets, amb, generate).store == StoreLoop(app.store, config, p, targets, amb, generate)
    ensures EngageAll(app, config, p, targets, amb, generate).logs == PushAll(app.logs, TargetEntries(config, p, targets, amb))
    ensures EngageAll(app, config, p, targets, amb, generate).isProcessing == app.isProcessing
    ensures |targets| > 0 ==>
              EngageAll(app, config, p, targets, amb, generate).stats == RefreshStats(StoreLoop(app.store, config, p, targets, amb, generate))
    decreases |targets|
  {
    if |targets| == 0 {
      assert TargetEntries(config, p, targets, amb) == [];
    } else {
      EngageAllSplits(app, config, p, targets[..|targets| - 1], amb, generate);
      TargetEntriesSnoc(config, p, targets, amb);
    }
  }

  /** The store loop appends exactly the planned actions. */
  lemma {:induction false} StoreLoopActions(s: Store, config: AutomationConfig, p: Platform,
                                            targets: seq<CollectedProfile>, amb: Ambient, generate: Generator)
    ensures StoreLoop(s, config, p, targets, amb, generate).actions == s.actions + PlannedActions(config, p, targets, amb, generate)
    decreases |targets|
  {
    if |targets| == 0 {
      assert PlannedActions(config, p, targets, amb, generate) == [];
    } else {
      StoreLoopActions(s, config, p, targets[..|targets| - 1], amb, generate);
      PlannedSnoc(config, p, targets, amb, generate);
    }
  }

  /** The store loop changes neither the accounts nor the profiles. */
  lemma {:induction false} StoreLoopFrame(s: Store, config: AutomationConfig, p: Platform,
                                          targets: seq<CollectedProfile>, amb: Ambient, generate: Generator)
    ensures StoreLoop(s, config, p, targets, amb, generate).accounts == s.accounts
    ensures StoreLoop(s, config, p, targets, amb, generate).profiles == s.profiles
    decreases |targets|
  {
    if |targets| > 0 {
      StoreLoopFrame(s, config, p, targets[..|targets| - 1], amb, generate);
    }
  }

  /** `addAction` never takes a handle out of an interacted list. */
  lemma AddActionKeepsInteracted(s: Store, d: ActionDraft, id: string, at: string, q: Platform, h: string)
    requires h in GetInteractedList(s, q)
    ensures h in GetInteractedList(AddAction(s, d, id, at), q)
  {
  }

  /** The store loop puts every target's handle in the platform's interacted list. */
  lemma {:induction false} StoreLoopInteracted(s: Store, config: AutomationConfig, p: Platform,
                                               targets: seq<CollectedProfile>, amb: Ambient, generate: Generator)
    ensures forall j :: 0 <= j < |targets| ==>
              targets[j].perfilUsuario in GetInteractedList(StoreLoop(s, config, p, targets, amb, generate), p)
    decreases |targets|
  {
    if |targets| > 0 {
      var n := |targets| - 1;
      var init := targets[..n];
      StoreLoopInteracted(s, config, p, init, amb, generate);
      var mid := StoreLoop(s, config, p, init, amb, generate);
      var draft := TargetDraft(config, p, targets[n], n, generate);
      forall j | 0 <= j < |targets|
        ensures targets[j].perfilUsuario in GetInteractedList(AddAction(mid, draft, amb.uuid(n), amb.isoNow(n)), p)
      {
        if j < n {
          assert targets[j] == init[j];
          AddActionKeepsInteracted(mid, draft, amb.uuid(n), amb.isoNow(n), p, targets[j].perfilUsuario);
        }
      }
    }
  }

  /** The store loop leaves the other platforms' interacted lists alone. */
  lemma {:induction false} StoreLoopOtherPlatforms(s: Store, config: AutomationConfig, p: Platform,
                                                   targets: seq<CollectedProfile>, amb: Ambient, generate: Generator)
    ensures forall q :: q != p ==> GetInteractedList(StoreLoop(s, config, p, targets, amb, generate), q) == GetInteractedList(s, q)
    decreases |targets|
  {
    if |targets| > 0 {
      StoreLoopOtherPlatforms(s, config, p, targets[..|targets| - 1], amb, generate);
    }
  }

  /** The store loop keeps the store invariant. */
  lemma {:induction false} StoreLoopValid(s: Store, config: AutomationConfig, p: Platform,
                                          targets: seq<CollectedProfile>, amb: Ambient, generate: Generator)
    requires Valid(s)
    ensures Valid(StoreLoop(s, config, p, targets, amb, generate))
    decreases |targets|
  {
    if |targets| > 0 {
      var n := |targets| - 1;
      StoreLoopValid(s, config, p, targets[..n], amb, generate);
      AddActionValid(StoreLoop(s, config, p, targets[..n], amb, generate), TargetDraft(config, p, targets[n], n, generate),
                     amb.uuid(n), amb.isoNow(n));
    }
  }

  /** A cycle that reaches its targets is the start step, the target loop
      and the finish step run by the platform's first active account. */
  lemma CycleUnfolds(app: App, config: AutomationConfig, p: Platform, amb: Ambient, generate: Generator)
    requires exists j :: 0 <= j < |app.store.accounts| && ActiveOn(app.store.accounts[j], p)
    requires |Targets(app.store, config, p)| > 0
    ensures FindActive(app.store.accounts, p).Some?
    ensures var targets := Targets(app.store, config, p);
            var account := FindActive(app.store.accounts, p).value;
            RunBulkEngagement(app, config, p, amb, generate) ==
              FinishCycle(EngageAll(StartCycle(app, account, p, amb), config, p, targets, amb, generate), |targets|, amb)
  {
  }

  /** With no active account for the platform, the cycle records nothing
      and logs exactly one error entry. */
  lemma CycleWithoutAccount(app: App, config: AutomationConfig, p: Platform, amb: Ambient, generate: Generator)
    requires forall j :: 0 <= j < |app.store.accounts| ==> !ActiveOn(app.store.accounts[j], p)
    ensures var r := RunBulkEngagement(app, config, p, amb, generate);
      && r.store == app.store && r.stats == app.stats
      && r.isProcessing == app.isProcessing && r.currentTask == app.currentTask
      && r.logs == AddLog(app.logs, amb.clock(0), NoAccountMessage(p), Error, None)
  {
  }

  /** With an active account but no profile selected for the platform,
      the cycle records nothing and logs exactly one warning entry. */
  lemma CycleWithoutTargets(app: App, config: AutomationConfig, p: Platform, amb: Ambient, generate: Generator)
    requires exists j :: 0 <= j < |app.store.accounts| && ActiveOn(app.store.accounts[j], p)
    requires |Targets(app.store, config, p)| == 0
    ensures var r := RunBulkEngagement(app, config, p, amb, generate);
      && r.store == app.store && r.stats == app.stats
      && r.isProcessing == app.isProcessing && r.currentTask == app.currentTask
      && r.logs == AddLog(app.logs, amb.clock(0), NoProfilesMessage, Warning, None)
  {
  }

  /** A cycle that reaches its targets appends one action per selected
      profile, in profile order (see `PlannedActionsShape`). */
  lemma CycleActions(app: App, config: AutomationConfig, p: Platform, amb: Ambient, generate: Generator)
    requires exists j :: 0 <= j < |app.store.accounts| && ActiveOn(app.store.accounts[j], p)
    requires |Targets(app.store, config, p)| > 0
    ensures RunBulkEngagement(app, config, p, amb, generate).store.actions ==
            app.store.actions + PlannedActions(config, p, Targets(app.store, config, p), amb, generate)
  {
    CycleUnfolds(app, config, p, amb, generate);
    var targets := Targets(app.store, config, p);
    var account := FindActive(app.store.accounts, p).value;
    EngageAllSplits(StartCycle(app, account, p, amb), config, p, targets, amb, generate);
    StoreLoopActions(app.store, config, p, targets, amb, generate);
  }

  /** ... while accounts and profiles stay as they were, the counters
      match the store and the progress markers are reset. */
  lemma CycleFrame(app: App, config: AutomationConfig, p: Platform, amb: Ambient, generate: Generator)
    requires exists j :: 0 <= j < |app.store.accounts| && ActiveOn(app.store.accounts[j], p)
    requires |Targets(app.store, config, p)| > 0
    ensures var r := RunBulkEngagement(app, config, p, amb, generate);
      && r.store.accounts == app.store.accounts && r.store.profiles == app.store.profiles
      && r.stats == Stats(|app.store.profiles|, |r.store.actions|, |app.store.accounts|)
      && !r.isProcessing && r.currentTask == ""
  {
    CycleUnfolds(app, config, p, amb, generate);
    var targets := Targets(app.store, config, p);
    var account := FindActive(app.store.accounts, p).value;
    EngageAllSplits(StartCycle(app, account, p, amb), config, p, targets, amb, generate);
    StoreLoopFrame(app.store, config, p, targets, amb, generate);
  }

  /** The planned actions: one per target, in order, naming the target,
      the platform and the configured type. The text is generated only for
      comments and direct messages with generation switched on, and is the
      manual text otherwise; an empty text is stored as absent. */
  lemma PlannedActionsShape(config: AutomationConfig, p: Platform, targets: seq<CollectedProfile>,
                            amb: Ambient, generate: Generator)
    ensures var planned := PlannedActions(config, p, targets, amb, generate);
      && |planned| == |targets|
      && forall j :: 0 <= j < |targets| ==>
           && planned[j].perfilUsuario == targets[j].perfilUsuario
           && planned[j].plataforma == p
           && planned[j].tipoAcao == config.actionType
           && planned[j].id == amb.uuid(j) && planned[j].dataAcao == amb.isoNow(j)
           && (config.useAI && config.actionType == Comentar ==>
                 planned[j].conteudo == Stored(generate(config.aiPrompt, p, Comment, j)))
           && (config.useAI && config.actionType == Direct ==>
                 planned[j].conteudo == Stored(generate(config.aiPrompt, p, DirectMessage, j)))
           && (!(config.useAI && (config.actionType == Comentar || config.actionType == Direct)) ==>
                 planned[j].conteudo == Stored(config.manualText))
  {
  }

  /** The number of actions a cycle writes: a non-negative quantity selects
      the first `min(count, available)` profiles of the platform. */
  lemma CycleCount(app: App, config: AutomationConfig, p: Platform, amb: Ambient, generate: Generator)
    requires exists j :: 0 <= j < |app.store.accounts| && ActiveOn(app.store.accounts[j], p)
    requires config.targetCount.Int? && config.targetCount.value > 0
    requires |GetProfiles(app.store, Some(p))| > 0
    ensures |RunBulkEngagement(app, config, p, amb, generate).store.actions| ==
            |app.store.actions| + Min(config.targetCount.value, |GetProfiles(app.store, Some(p))|)
  {
    CycleActions(app, config, p, amb, generate);
    PlannedActionsShape(config, p, Targets(app.store, config, p), amb, generate);
  }

  /** A cycle that reaches its targets logs one info entry, one success
      entry per target and a final success entry; the log becomes the
      newest `Capacity` entries of that history on top of the old log. */
  lemma CycleLog(app: App, config: AutomationConfig, p: Platform, amb: Ambient, generate: Generator)
    requires exists j :: 0 <= j < |app.store.accounts| && ActiveOn(app.store.accounts[j], p)
    requires |Targets(app.store, config, p)| > 0
    ensures var targets := Targets(app.store, config, p);
      var account := FindActive(app.store.accounts, p).value;
      RunBulkEngagement(app, config, p, amb, generate).logs ==
        Window(Reverse(CycleEntries(config, p, account, targets, amb)) + app.logs)
  {
    CycleUnfolds(app, config, p, amb, generate);
    var targets := Targets(app.store, config, p);
    var account := FindActive(app.store.accounts, p).value;
    var start := LogEntry(amb.clock(0), StartMessage(account.username), Info, Some(p));
    var final := LogEntry(amb.clock(|targets| + 1), DoneMessage, Success, None);
    var started := StartCycle(app, account, p, amb);
    EngageAllSplits(started, config, p, targets, amb, generate);
    var ts := TargetEntries(config, p, targets, amb);
    PushAllOne(app.logs, start);
    PushAllConcat(app.logs, [start], ts);
    PushAllOne(PushAll(app.logs, [start] + ts), final);
    PushAllConcat(app.logs, [start] + ts, [final]);
    PushAllWindow(app.logs, CycleEntries(config, p, account, targets, amb));
  }

  lemma PushAllOne(logs: seq<LogEntry>, e: LogEntry)
    ensures PushAll(logs, [e]) == Push(logs, e)
  {
    assert [e][..0] == [];
  }

  /** The entries of a cycle: an info entry first, then only success
      entries, one per target in target order and a closing one. */
  lemma CycleEntriesShape(config: AutomationConfig, p: Platform, account: SocialAccount,
                          targets: seq<CollectedProfile>, amb: Ambient)
    ensures var entries := CycleEntries(config, p, account, targets, amb);
      && |entries| == |targets| + 2
      && entries[0].level == Info
      && (forall k :: 1 <= k < |entries| ==> entries[k].level == Success)
      && (forall k :: 0 <= k < |targets| ==> entries[k + 1].message == TargetMessage(config.actionType, targets[k].perfilUsuario))
      && entries[|targets| + 1].message == DoneMessage
  {
    var ts := TargetEntries(config, p, targets, amb);
    var entries := CycleEntries(config, p, account, targets, amb);
    assert forall k :: 0 <= k < |targets| ==> entries[k + 1] == ts[k];
  }

  /** After a cycle every selected handle is in the platform's interacted
      list, and the other platforms' lists are untouched. */
  lemma CycleMarksInteracted(app: App, config: AutomationConfig, p: Platform, amb: Ambient, generate: Generator)
    ensures var r := RunBulkEngagement(app, config, p, amb, generate);
      var targets := Targets(app.store, config, p);
      && (FindActive(app.store.accounts, p).Some? ==>
            forall j :: 0 <= j < |targets| ==> targets[j].perfilUsuario in GetInteractedList(r.store, p))
      && (forall q :: q != p ==> GetInteractedList(r.store, q) == GetInteractedList(app.store, q))
  {
    var targets := Targets(app.store, config, p);
    if FindActive(app.store.accounts, p).Some? && |targets| > 0 {
      var account := FindActive(app.store.accounts, p).value;
      EngageAllSplits(StartCycle(app, account, p, amb), config, p, targets, amb, generate);
      StoreLoopInteracted(app.store, config, p, targets, amb, generate);
      StoreLoopOtherPlatforms(app.store, config, p, targets, amb, generate);
    }
  }

  /** A cycle keeps the store invariant: in particular the profile
      collection stays free of duplicate (handle, platform) pairs. */
  lemma CycleValid(app: App, config: AutomationConfig, p: Platform, amb: Ambient, generate: Generator)
    requires Valid(app.store)
    ensures Valid(RunBulkEngagement(app, config, p, amb, generate).store)
  {
    var targets := Targets(app.store, config, p);
    if FindActive(app.store.accounts, p).Some? && |targets| > 0 {
      var account := FindActive(app.store.accounts, p).value;
      EngageAllSplits(StartCycle(app, account, p, amb), config, p, targets, amb, generate);
      StoreLoopValid(app.store, config, p, targets, amb, generate);
    }
  }

  /** Auto-posting without an active account for the idea's platform does nothing at all. */
  lemma AutoPostWithoutAccount(app: App, idea: PostIdea, amb: Ambient)
    requires forall j :: 0 <= j < |app.store.accounts| ==> !ActiveOn(app.store.accounts[j], idea.platform)
    ensures HandleAutoPost(app, idea, amb) == app
  {
  }

  /** Auto-posting with an active account appends exactly one 'curtir'
      action by that account's username, carrying the idea's title, which
      also puts the account's own username in the platform's interacted
      list; it logs an info entry followed by a success entry. */
  lemma AutoPostRecords(app: App, idea: PostIdea, amb: Ambient)
    requires exists j :: 0 <= j < |app.store.accounts| && ActiveOn(app.store.accounts[j], idea.platform)
    ensures FindActive(app.store.accounts, idea.platform).Some?
    ensures var r := HandleAutoPost(app, idea, amb);
      var account := FindActive(app.store.accounts, idea.platform).value;
      && r.store.actions == app.store.actions +
           [ActionPerformed(amb.uuid(0), account.username, idea.platform, Curtir, amb.isoNow(0),
                            Some("Postagem: " + idea.title))]
      && r.store.accounts == app.store.accounts && r.store.profiles == app.store.profiles
      && r.logs == Window([LogEntry(amb.clock(1), PublishedMessage(account.username), Success, Some(idea.platform)),
                           LogEntry(amb.clock(0), PostingMessage(account.username), Info, Some(idea.platform))]
                          + app.logs)
      && r.stats == Stats(|app.store.profiles|, |app.store.actions| + 1, |app.store.accounts|)
      && !r.isProcessing && r.currentTask == app.currentTask
    ensures var r := HandleAutoPost(app, idea, amb);
      var account := FindActive(app.store.accounts, idea.platform).value;
      && r.store == AddAction(app.store, ActionDraft(account.username, idea.platform, Curtir, Some("Postagem: " + idea.title)),
                              amb.uuid(0), amb.isoNow(0))
      && account.username in GetInteractedList(r.store, idea.platform)
      && forall q :: q != idea.platform ==> GetInteractedList(r.store, q) == GetInteractedList(app.store, q)
  {
    var account := FindActive(app.store.accounts, idea.platform).value;
    var first := LogEntry(amb.clock(0), PostingMessage(account.username), Info, Some(idea.platform));
    var second := LogEntry(amb.clock(1), PublishedMessage(account.username), Success, Some(idea.platform));
    WindowCons(second, [first] + app.logs);
    assert [second] + ([first] + app.logs) == [second, first] + app.logs;
  }

  /** Linking an account makes its platform ready for a cycle. */
  lemma LinkedAccountEnablesCycle(app: App, username: string, p: Platform, amb: Ambient)
    ensures FindActive(AddSocialAccount(app, username, p, amb).store.accounts, p).Some?
  {
    var r := AddSocialAccount(app, username, p, amb);
    assert ActiveOn(r.store.accounts[|app.store.accounts|], p);
  }

  /** Auto-posting keeps the store invariant. */
  lemma AutoPostValid(app: App, idea: PostIdea, amb: Ambient)
    requires Valid(app.store)
    ensures Valid(HandleAutoPost(app, idea, amb).store)
  {
    match FindActive(GetAccounts(app.store), idea.platform)
    case None =>
    case Some(account) =>
      var draft := ActionDraft(account.username, idea.platform, Curtir, Some("Postagem: " + idea.title));
      AddActionValid(app.store, draft, amb.uuid(0), amb.isoNow(0));
  }

  /** Linking an account keeps the store invariant. */
  lemma LinkValid(app: App, username: string, p: Platform, amb: Ambient)
    requires Valid(app.store)
    ensures Valid(AddSocialAccount(app, username, p, amb).store)
  {
    ApplyValid(app.store, AddAccountOp(AccountDraft(username, None, p, Ativa), amb.uuid(0), amb.isoNow(0)));
  }
}
