/** Laws of the record store: the invariant every reachable store keeps,
    the append-only action history, and how account removal undoes
    account creation. */
module StoreLaws {
  import opened Types
  import opened Seqs
  import opened Database

  /** Every mutating operation of the store. */
  datatype Op =
    | AddAccountOp(account: AccountDraft, id: string, at: string)
    | DeleteAccountOp(accountId: string)
    | AddProfileOp(profile: ProfileDraft, id: string, at: string)
    | AddActionOp(action: ActionDraft, id: string, at: string)
    | ClearAllOp

  function Apply(s: Store, op: Op): Store
  {
    match op
    case AddAccountOp(d, id, at) => AddAccount(s, d, id, at).0
    case DeleteAccountOp(id) => DeleteAccount(s, id)
    case AddProfileOp(d, id, at) => AddProfile(s, d, id, at).0
    case AddActionOp(d, id, at) => AddAction(s, d, id, at)
    case ClearAllOp => ClearAll(s)
  }

  /** The store after the operations, first to last. */
  function ApplyAll(s: Store, ops: seq<Op>): Store
    decreases |ops|
  {
    if |ops| == 0 then s else ApplyAll(Apply(s, ops[0]), ops[1..])
  }

  /** Some recorded action targeted `handle` on `platform`. */
  ghost predicate ActedOn(actions: seq<ActionPerformed>, platform: Platform, handle: string)
  {
    exists i :: 0 <= i < |actions| && actions[i].plataforma == platform && actions[i].perfilUsuario == handle
  }

  /** The store invariant: no duplicate (handle, platform) profile; each
      interacted list is duplicate-free and holds exactly the handles the
      action history records for its platform. */
  ghost predicate Valid(s: Store)
  {
    && DistinctTargets(s.profiles)
    && (forall p :: NoDuplicates(GetInteractedList(s, p)))
    && (forall p, h :: h in GetInteractedList(s, p) <==> ActedOn(s.actions, p, h))
  }

  lemma EmptyValid()
    ensures Valid(Empty)
  {
  }

  /** `addAction` keeps the interacted lists in step with the history. */
  lemma AddActionValid(s: Store, d: ActionDraft, id: string, at: string)
    requires Valid(s)
    ensures Valid(AddAction(s, d, id, at))
  {
    var r := AddAction(s, d, id, at);
    var a := NewAction(d, id, at);
    assert r.actions == s.actions + [a];
    forall p, h
      ensures h in GetInteractedList(r, p) <==> ActedOn(r.actions, p, h)
    {
      if ActedOn(r.actions, p, h) {
        var i :| 0 <= i < |r.actions| && r.actions[i].plataforma == p && r.actions[i].perfilUsuario == h;
        if i < |s.actions| {
          assert ActedOn(s.actions, p, h);
        }
      }
      if h in GetInteractedList(r, p) && !(p == d.plataforma && h == d.perfilUsuario) {
        assert ActedOn(s.actions, p, h);
        var i :| 0 <= i < |s.actions| && s.actions[i].plataforma == p && s.actions[i].perfilUsuario == h;
        assert r.actions[i] == s.actions[i];
      }
      if p == d.plataforma && h == d.perfilUsuario {
        assert r.actions[|s.actions|] == a;
      }
    }
  }

  /** Every store operation preserves the invariant. */
  lemma ApplyValid(s: Store, op: Op)
    requires Valid(s)
    ensures Valid(Apply(s, op))
  {
    match op
    case AddAccountOp(d, id, at) =>
      var r := Apply(s, op);
      assert forall p :: GetInteractedList(r, p) == GetInteractedList(s, p);
    case DeleteAccountOp(id) =>
      var r := Apply(s, op);
      assert forall p :: GetInteractedList(r, p) == GetInteractedList(s, p);
    case AddProfileOp(d, id, at) =>
      var r := Apply(s, op);
      assert forall p :: GetInteractedList(r, p) == GetInteractedList(s, p);
    case AddActionOp(d, id, at) => AddActionValid(s, d, id, at);
    case ClearAllOp =>
  }

  /** Every store reachable from the empty one satisfies the invariant. */
  lemma {:induction false} ReachableValid(s: Store, ops: seq<Op>)
    requires Valid(s)
    ensures Valid(ApplyAll(s, ops))
    decreases |ops|
  {
    if |ops| > 0 {
      ApplyValid(s, ops[0]);
      ReachableValid(Apply(s, ops[0]), ops[1..]);
    }
  }

  /** Short of `clearAll`, no operation removes or edits a recorded
      action or a collected profile: both are append-only. */
  lemma {:induction false} HistoryAppendOnly(s: Store, ops: seq<Op>)
    requires forall i :: 0 <= i < |ops| ==> !ops[i].ClearAllOp?
    ensures IsPrefix(s.actions, ApplyAll(s, ops).actions)
    ensures IsPrefix(s.profiles, ApplyAll(s, ops).profiles)
    decreases |ops|
  {
    if |ops| > 0 {
      var t := Apply(s, ops[0]);
      assert IsPrefix(s.actions, t.actions) && IsPrefix(s.profiles, t.profiles);
      HistoryAppendOnly(t, ops[1..]);
      var u := ApplyAll(t, ops[1..]);
      assert u.actions[..|t.actions|][..|s.actions|] == u.actions[..|s.actions|];
      assert u.profiles[..|t.profiles|][..|s.profiles|] == u.profiles[..|s.profiles|];
    }
  }

  /** Deleting the id of an account just added, when no other account
      carries that id, gives back the original store. */
  lemma AddThenDeleteAccount(s: Store, d: AccountDraft, id: string, at: string)
    requires forall i :: 0 <= i < |s.accounts| ==> s.accounts[i].id != id
    ensures DeleteAccount(AddAccount(s, d, id, at).0, id) == s
  {
    var added := AddAccount(s, d, id, at);
    var keep := (a: SocialAccount) => a.id != id;
    assert added.0.accounts == s.accounts + [added.1];
    FilterSnoc(s.accounts, added.1, keep);
    FilterKeepsAll(s.accounts, keep);
  }

  /** Deletion keeps the relative order of the remaining accounts: deleting
      from a concatenation deletes from each part. */
  lemma DeleteAccountKeepsOrder(s: Store, a: seq<SocialAccount>, b: seq<SocialAccount>, id: string)
    ensures DeleteAccount(s.(accounts := a + b), id).accounts ==
            DeleteAccount(s.(accounts := a), id).accounts + DeleteAccount(s.(accounts := b), id).accounts
  {
    FilterConcat(a, b, (x: SocialAccount) => x.id != id);
  }

  /** Deleting an account twice is the same as deleting it once. */
  lemma DeleteAccountIdempotent(s: Store, id: string)
    ensures DeleteAccount(DeleteAccount(s, id), id) == DeleteAccount(s, id)
  {
    FilterIdempotent(s.accounts, (a: SocialAccount) => a.id != id);
  }

  /** A platform's listing keeps the stored order: listing a concatenation
      lists the first part's profiles of that platform, then the second's. */
  lemma GetProfilesKeepsOrder(s: Store, a: seq<CollectedProfile>, b: seq<CollectedProfile>, q: Platform)
    ensures GetProfiles(s.(profiles := a + b), Some(q)) ==
            GetProfiles(s.(profiles := a), Some(q)) + GetProfiles(s.(profiles := b), Some(q))
  {
    FilterConcat(a, b, (p: CollectedProfile) => OnPlatform(p, q));
  }

  /** A fresh profile shows up at the end of its platform's listing and
      leaves every other platform's listing as it was. */
  lemma AddProfileThenList(s: Store, d: ProfileDraft, id: string, at: string, q: Platform)
    requires AddProfile(s, d, id, at).1
    ensures GetProfiles(AddProfile(s, d, id, at).0, Some(q)) ==
              GetProfiles(s, Some(q)) + (if d.plataforma == q then [NewProfile(d, id, at)] else [])
  {
    FilterSnoc(s.profiles, NewProfile(d, id, at), (p: CollectedProfile) => OnPlatform(p, q));
  }
}
