/** The automation logic of App.tsx (lines 55-165): the counters, the
    engagement cycle, account linking and auto-posting, over an app
    state that holds the store, the activity log, the counters and the
    progress markers. Delays are no-ops; ids, timestamps and generated
    text come from the caller. */
module Automation {
  import opened Types
  import opened Seqs
  import opened Database
  import opened ActivityLog

  datatype Stats = Stats(collected: nat, actions: nat, accounts: nat)

  /** Result of `parseInt` on the quantity field: an integer or NaN. */
  datatype ParsedInt = Int(value: int) | NaN

  datatype AutomationConfig = AutomationConfig(
    actionType: ActionType,
    targetCount: ParsedInt,
    postsPerProfile: int,
    useAI: bool,
    manualText: string,
    aiPrompt: string,
    unfollowDays: int,
    unfollowCount: int)

  /** The kind of text requested from the generator. */
  datatype TextKind = Comment | DirectMessage

  /** The engagement-text generator: prompt, platform, kind and the
      index of the call within the cycle. It never fails, because the
      real one answers with a fixed fallback text on error. */
  type Generator = (string, Platform, TextKind, nat) -> string

  /** Fresh ids, ISO timestamps and clock readings, numbered by step. */
  datatype Ambient = Ambient(uuid: nat -> string, isoNow: nat -> string, clock: nat -> string)

  datatype App = App(
    store: Store,
    logs: seq<LogEntry>,
    stats: Stats,
    isProcessing: bool,
    currentTask: string)

  /** `refreshStats` */
  function RefreshStats(s: Store): Stats
  {
    Stats(|GetProfiles(s, None)|, |GetActions(s)|, |GetAccounts(s)|)
  }

  predicate ActiveOn(a: SocialAccount, p: Platform)
  {
    a.platform == p && a.status == Ativa
  }

  /** Index of the first active account for `p` at or after `from`. */
  function FirstActiveFrom(accounts: seq<SocialAccount>, p: Platform, from: nat): (r: Option<nat>)
    requires from <= |accounts|
    ensures r.Some? ==> from <= r.value < |accounts| && ActiveOn(accounts[r.value], p)
    ensures r.Some? ==> forall j :: from <= j < r.value ==> !ActiveOn(accounts[j], p)
    ensures r.None? <==> forall j :: from <= j < |accounts| ==> !ActiveOn(accounts[j], p)
    decreases |accounts| - from
  {
    if from == |accounts| then None
    else if ActiveOn(accounts[from], p) then Some(from)
    else FirstActiveFrom(accounts, p, from + 1)
  }

  /** `accounts.find(a => a.platform === p && a.status === 'ativa')`:
      the first active account of the platform in stored order. */
  function FindActive(accounts: seq<SocialAccount>, p: Platform): (r: Option<SocialAccount>)
    ensures r.None? <==> forall j :: 0 <= j < |accounts| ==> !ActiveOn(accounts[j], p)
    ensures r.Some? ==> exists i :: 0 <= i < |accounts| && accounts[i] == r.value && ActiveOn(r.value, p)
                                    && forall j :: 0 <= j < i ==> !ActiveOn(accounts[j], p)
  {
    match FirstActiveFrom(accounts, p, 0)
    case None => None
    case Some(i) => Some(accounts[i])
  }

  /** The end index JavaScript uses for `xs.slice(0, end)` on a sequence of
      length `len`: a non-negative end takes that many elements (all of
      them if there are fewer), a negative end leaves that many out at the
      back (all of them if there are fewer), and NaN takes none. */
  function SliceEnd(end: ParsedInt, len: nat): (r: nat)
    ensures r <= len
    ensures end.Int? && end.value >= 0 ==> r <= end.value && (r < end.value ==> r == len)
    ensures end.Int? && end.value < 0 ==> len - r <= -end.value && (len - r < -end.value ==> r == 0)
    ensures end.NaN? ==> r == 0
  {
    match end
    case NaN => 0
    case Int(n) =>
      if n >= 0 then Min(n, len)
      else if len + n < 0 then 0
      else len + n
  }

  /** The profiles an engagement cycle works through: the platform's
      listing cut at the configured quantity. */
  function Targets(s: Store, config: AutomationConfig, p: Platform): (r: seq<CollectedProfile>)
    ensures IsPrefix(r, GetProfiles(s, Some(p)))
    ensures config.targetCount.Int? && config.targetCount.value >= 0 ==>
              |r| == Min(config.targetCount.value, |GetProfiles(s, Some(p))|)
    ensures config.targetCount.Int? && config.targetCount.value < 0 ==>
              |GetProfiles(s, Some(p))| - |r| == Min(-config.targetCount.value, |GetProfiles(s, Some(p))|)
    ensures config.targetCount.NaN? ==> r == []
  {
    var profiles := GetProfiles(s, Some(p));
    profiles[..SliceEnd(config.targetCount, |profiles|)]
  }

  /** Every target is a stored profile of the cycle's platform. */
  lemma TargetsChosen(s: Store, config: AutomationConfig, p: Platform)
    ensures forall i :: 0 <= i < |Targets(s, config, p)| ==>
              Targets(s, config, p)[i] in s.profiles && Targets(s, config, p)[i].plataforma == p
  {
    var listing := GetProfiles(s, Some(p));
    var targets := Targets(s, config, p);
    GetProfilesExactly(s, p);
    forall i | 0 <= i < |targets|
      ensures targets[i] in s.profiles && targets[i].plataforma == p
    {
      assert targets[i] == listing[i];
    }
  }

  /** The text an action carries before the empty-text check. */
  function ContentFor(config: AutomationConfig, p: Platform, generate: Generator, i: nat): string
  {
    if config.useAI && (config.actionType == Comentar || config.actionType == Direct) then
      generate(config.aiPrompt, p, if config.actionType == Comentar then Comment else DirectMessage, i)
    else config.manualText
  }

  /** `content || undefined`: an empty text is stored as absent. */
  function Stored(text: string): Option<string>
  {
    if text == "" then None else Some(text)
  }

  /** The action recorded for target number `i`, before it is stamped. */
  function TargetDraft(config: AutomationConfig, p: Platform, target: CollectedProfile, i: nat,
                       generate: Generator): ActionDraft
  {
    ActionDraft(target.perfilUsuario, p, config.actionType, Stored(ContentFor(config, p, generate, i)))
  }

  function NoAccountMessage(p: Platform): string
  {
    "Erro: Conecte uma conta de " + PlatformUpper(p) + " primeiro."
  }

  const NoProfilesMessage: string := "Erro: Nenhum perfil coletado disponível."

  function StartMessage(username: string): string
  {
    "Iniciando Ciclo de Engajamento via @" + username + "..."
  }

  function TargetMessage(a: ActionType, handle: string): string
  {
    "Ação [" + ActionUpper(a) + "] em @" + handle
  }

  const DoneMessage: string := "Ciclo concluído!"

  function LinkedMessage(username: string, p: Platform): string
  {
    "Conta @" + username + " (" + PlatformName(p) + ") vinculada"
  }

  function PostingMessage(username: string): string
  {
    "Postando automaticamente em @" + username + "..."
  }

  function PublishedMessage(username: string): string
  {
    "Publicado em @" + username + "!"
  }

  /** One pass of the loop body for target number `i`. */
  function Engage(app: App, config: AutomationConfig, p: Platform, target: CollectedProfile, i: nat,
                  amb: Ambient, generate: Generator): App
  {
    var store := AddAction(app.store, TargetDraft(config, p, target, i, generate), amb.uuid(i), amb.isoNow(i));
    var logs := AddLog(app.logs, amb.clock(i + 1), TargetMessage(config.actionType, target.perfilUsuario),
                       Success, Some(p));
    app.(store := store, logs := logs, stats := RefreshStats(store),
         currentTask := "Interagindo com @" + target.perfilUsuario)
  }

  /** The loop over the targets, in order. */
  function EngageAll(app: App, config: AutomationConfig, p: Platform, targets: seq<CollectedProfile>,
                     amb: Ambient, generate: Generator): App
  {
    if |targets| == 0 then app
    else
      var n := |targets| - 1;
      Engage(EngageAll(app, config, p, targets[..n], amb, generate), config, p, targets[n], n, amb, generate)
  }

  /** `runBulkEngagement` on `activePlatform` `p`. */
  function RunBulkEngagement(app: App, config: AutomationConfig, p: Platform, amb: Ambient,
                             generate: Generator): App
  {
    match FindActive(GetAccounts(app.store), p)
    case None =>
      app.(logs := AddLog(app.logs, amb.clock(0), NoAccountMessage(p), Error, None))
    case Some(account) =>
      var targets := Targets(app.store, config, p);
      if |targets| == 0 then
        app.(logs := AddLog(app.logs, amb.clock(0), NoProfilesMessage, Warning, None))
      else
        FinishCycle(EngageAll(StartCycle(app, account, p, amb), config, p, targets, amb, generate), |targets|, amb)
  }

  /** Marks the app busy and logs the start of a cycle run by `account`. */
  function StartCycle(app: App, account: SocialAccount, p: Platform, amb: Ambient): App
  {
    app.(isProcessing := true,
         logs := AddLog(app.logs, amb.clock(0), StartMessage(account.username), Info, Some(p)))
  }

  /** Logs the end of a cycle over `n` targets and clears the progress markers. */
  function FinishCycle(ran: App, n: nat, amb: Ambient): App
  {
    ran.(logs := AddLog(ran.logs, amb.clock(n + 1), DoneMessage, Success, None),
         isProcessing := false, currentTask := "")
  }

  /** `addSocialAccount`: links an active account (the form's password is
      not passed on), logs it and refreshes the counters. */
  function AddSocialAccount(app: App, username: string, p: Platform, amb: Ambient): (r: App)
    ensures |r.store.accounts| == |app.store.accounts| + 1
    ensures r.store.accounts[..|app.store.accounts|] == app.store.accounts
    ensures var a := r.store.accounts[|app.store.accounts|];
            a.username == username && ActiveOn(a, p) && a.password.None?
    ensures r.store.profiles == app.store.profiles && r.store.actions == app.store.actions
    ensures r.logs == AddLog(app.logs, amb.clock(0), LinkedMessage(username, p), Success, None)
    ensures r.stats == Stats(|r.store.profiles|, |r.store.actions|, |app.store.accounts| + 1)
    ensures r.store.interacted == app.store.interacted
    ensures r.isProcessing == app.isProcessing && r.currentTask == app.currentTask
  {
    var added := AddAccount(app.store, AccountDraft(username, None, p, Ativa), amb.uuid(0), amb.isoNow(0));
    var account := added.1;
    app.(store := added.0,
         logs := AddLog(app.logs, amb.clock(0), LinkedMessage(account.username, account.platform), Success, None),
         stats := RefreshStats(added.0))
  }

  /** `handleAutoPost`: publishing is recorded as a 'curtir' action by the
      platform's first active account. */
  function HandleAutoPost(app: App, idea: PostIdea, amb: Ambient): App
  {
    match FindActive(GetAccounts(app.store), idea.platform)
    case None => app
    case Some(account) =>
      var logs := AddLog(app.logs, amb.clock(0), PostingMessage(account.username), Info, Some(idea.platform));
      var draft := ActionDraft(account.username, idea.platform, Curtir, Some("Postagem: " + idea.title));
      var store := AddAction(app.store, draft, amb.uuid(0), amb.isoNow(0));
      app.(store := store,
           logs := AddLog(logs, amb.clock(1), PublishedMessage(account.username), Success, Some(idea.platform)),
           stats := RefreshStats(store),
           isProcessing := false)
  }
}
