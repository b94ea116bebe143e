/** The record store of services/database.ts: four collections that the
    source keeps in browser storage, held here as one immutable value.
    Fresh ids and timestamps are parameters instead of calls to the
    random-UUID generator and the clock. */
module Database {
  import opened Types
  import opened Seqs

  /** accounts, collected profiles, the action history and one
      "interacted" handle list per platform (a platform without a stored
      list reads as the empty list). */
  datatype Store = Store(
    accounts: seq<SocialAccount>,
    profiles: seq<CollectedProfile>,
    actions: seq<ActionPerformed>,
    interacted: map<Platform, seq<string>>)

  /** Nothing stored yet, and the state `clearAll` leaves behind. */
  const Empty := Store([], [], [], map[])

  function GetAccounts(s: Store): seq<SocialAccount>
  {
    s.accounts
  }

  /** `addAccount`: stamps the draft with an id and a creation time and
      appends it; returns the new store and the new account. */
  function AddAccount(s: Store, draft: AccountDraft, id: string, createdAt: string): (r: (Store, SocialAccount))
    ensures r.1.id == id && r.1.createdAt == createdAt
    ensures r.1.username == draft.username && r.1.password == draft.password
    ensures r.1.platform == draft.platform && r.1.status == draft.status
    ensures |r.0.accounts| == |s.accounts| + 1
    ensures r.0.accounts[..|s.accounts|] == s.accounts
    ensures r.0.accounts[|s.accounts|] == r.1
    ensures r.0.profiles == s.profiles && r.0.actions == s.actions && r.0.interacted == s.interacted
  {
    var account := SocialAccount(id, draft.username, draft.password, draft.platform, draft.status, createdAt);
    (s.(accounts := s.accounts + [account]), account)
  }

  /** `deleteAccount`: keeps, in order, the accounts whose id differs
      (see `DeleteAccountExactly` for which ones survive). */
  function DeleteAccount(s: Store, id: string): (r: Store)
    ensures |r.accounts| <= |s.accounts|
    ensures forall i :: 0 <= i < |r.accounts| ==> r.accounts[i].id != id
    ensures r.profiles == s.profiles && r.actions == s.actions && r.interacted == s.interacted
  {
    s.(accounts := Filter(s.accounts, (a: SocialAccount) => a.id != id))
  }

  /** Deletion keeps exactly the stored accounts whose id differs, each as
      often as it was stored. */
  lemma DeleteAccountExactly(s: Store, id: string)
    ensures forall a :: a in DeleteAccount(s, id).accounts <==> a in s.accounts && a.id != id
    ensures forall a :: multiset(DeleteAccount(s, id).accounts)[a] == if a.id != id then multiset(s.accounts)[a] else 0
  {
    var keep := (a: SocialAccount) => a.id != id;
    FilterMembers(s.accounts, keep);
    FilterCounts(s.accounts, keep);
  }

  predicate OnPlatform(p: CollectedProfile, platform: Platform)
  {
    p.plataforma == platform
  }

  /** `getProfiles(platform?)`: all profiles, or those of one platform in
      stored order (see `GetProfilesExactly` for which ones). */
  function GetProfiles(s: Store, platform: Option<Platform>): (r: seq<CollectedProfile>)
    ensures platform.None? ==> r == s.profiles
    ensures |r| <= |s.profiles|
    ensures platform.Some? ==> forall i :: 0 <= i < |r| ==> r[i].plataforma == platform.value
  {
    match platform
    case None => s.profiles
    case Some(q) => Filter(s.profiles, (p: CollectedProfile) => OnPlatform(p, q))
  }

  /** A platform's listing holds exactly the stored profiles of that
      platform, each as often as it was stored. */
  lemma GetProfilesExactly(s: Store, q: Platform)
    ensures forall p :: p in GetProfiles(s, Some(q)) <==> p in s.profiles && p.plataforma == q
    ensures forall p :: multiset(GetProfiles(s, Some(q)))[p] == if p.plataforma == q then multiset(s.profiles)[p] else 0
  {
    var keep := (p: CollectedProfile) => OnPlatform(p, q);
    FilterMembers(s.profiles, keep);
    FilterCounts(s.profiles, keep);
  }

  /** Two profiles name the same target: same handle on the same platform. */
  predicate SameTarget(a: CollectedProfile, b: CollectedProfile)
  {
    a.perfilUsuario == b.perfilUsuario && a.plataforma == b.plataforma
  }

  /** Some stored profile has this handle on this platform. */
  predicate HasTarget(profiles: seq<CollectedProfile>, handle: string, platform: Platform)
  {
    exists i :: 0 <= i < |profiles| && profiles[i].perfilUsuario == handle && profiles[i].plataforma == platform
  }

  /** The de-duplication invariant of the profile collection. */
  predicate DistinctTargets(profiles: seq<CollectedProfile>)
  {
    forall i, j :: 0 <= i < j < |profiles| ==> !SameTarget(profiles[i], profiles[j])
  }

  function NewProfile(draft: ProfileDraft, id: string, insertedAt: string): CollectedProfile
  {
    CollectedProfile(id, draft.perfilUsuario, draft.plataforma, draft.tipoOrigem, draft.perfilOrigem,
                     draft.comentario, draft.tipoComentario, draft.nicho, insertedAt)
  }

  /** `addProfile`: refuses a (handle, platform) pair already stored,
      otherwise appends the stamped profile; the boolean says which. */
  function AddProfile(s: Store, draft: ProfileDraft, id: string, insertedAt: string): (r: (Store, bool))
    ensures r.1 <==> !HasTarget(s.profiles, draft.perfilUsuario, draft.plataforma)
    ensures !r.1 ==> r.0 == s
    ensures r.1 ==> r.0.profiles == s.profiles + [NewProfile(draft, id, insertedAt)]
    ensures r.0.accounts == s.accounts && r.0.actions == s.actions && r.0.interacted == s.interacted
    ensures DistinctTargets(s.profiles) ==> DistinctTargets(r.0.profiles)
  {
    if HasTarget(s.profiles, draft.perfilUsuario, draft.plataforma) then (s, false)
    else
      var p := NewProfile(draft, id, insertedAt);
      var profiles := s.profiles + [p];
      assert forall i :: 0 <= i < |s.profiles| ==> !SameTarget(profiles[i], p);
      (s.(profiles := profiles), true)
  }

  function GetActions(s: Store): seq<ActionPerformed>
  {
    s.actions
  }

  /** `getInteractedList`: the handles already acted on for a platform. */
  function GetInteractedList(s: Store, platform: Platform): seq<string>
  {
    if platform in s.interacted then s.interacted[platform] else []
  }

  function NewAction(draft: ActionDraft, id: string, performedAt: string): ActionPerformed
  {
    ActionPerformed(id, draft.perfilUsuario, draft.plataforma, draft.tipoAcao, performedAt, draft.conteudo)
  }

  /** `addAction`: appends the stamped action to the history and adds its
      handle to its platform's interacted list unless already there. */
  function AddAction(s: Store, draft: ActionDraft, id: string, performedAt: string): (r: Store)
    ensures r.actions == s.actions + [NewAction(draft, id, performedAt)]
    ensures r.accounts == s.accounts && r.profiles == s.profiles
    ensures draft.perfilUsuario in GetInteractedList(r, draft.plataforma)
    ensures GetInteractedList(r, draft.plataforma) ==
              if draft.perfilUsuario in GetInteractedList(s, draft.plataforma) then GetInteractedList(s, draft.plataforma)
              else GetInteractedList(s, draft.plataforma) + [draft.perfilUsuario]
    ensures forall q :: q != draft.plataforma ==> GetInteractedList(r, q) == GetInteractedList(s, q)
    ensures NoDuplicates(GetInteractedList(s, draft.plataforma)) ==> NoDuplicates(GetInteractedList(r, draft.plataforma))
  {
    var actions := s.actions + [NewAction(draft, id, performedAt)];
    var list := GetInteractedList(s, draft.plataforma);
    if draft.perfilUsuario in list then s.(actions := actions)
    else s.(actions := actions, interacted := s.interacted[draft.plataforma := list + [draft.perfilUsuario]])
  }

  /** `clearAll`: removes every collection, including each platform's interacted list. */
  function ClearAll(s: Store): (r: Store)
    ensures r.accounts == [] && r.profiles == [] && r.actions == []
    ensures forall q :: GetInteractedList(r, q) == []
  {
    Empty
  }
}
