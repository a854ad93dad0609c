/**
 * Properties of the contract across calls: error order, claim idempotence,
 * pool accounting, append-only ids, and what no sequence of invocations can
 * change.
 */
module Properties {
  import opened Wrappers
  import opened Structs
  import opened Contract

  // ---------------------------------------------------------------- any invocation

  /** One invocation of an entry point (the clock is irrelevant to what is stored). */
  datatype Call =
    | Setup(newAdmin: Identity)
    | ReadConfig
    | Create(u: Utility, sender: Identity)
    | ReadUtility(id: U64)
    | ReadTokenUtility(asset: Identity)
    | Join(id: U64, sender: Identity, user: Identity)
    | End(id: U64, sender: Identity)
    | Claim(id: U64, user: Identity, sender: Identity)
    | Mark(id: U64, user: Identity, sender: Identity)
    | BindOnNft(asset: Identity, id: U64, user: Identity, sender: Identity)
    | Redeem(asset: Identity, id: U64, user: Identity, isOwner: bool)
    | Check(asset: Identity, id: U64)

  /** The storage after one invocation; queries and the non-persisting entry points leave it as it was. */
  function Execute(s: Store, c: Call): Store {
    match c
    case Setup(a) => SetupConfigStep(s, a)
    case Create(u, sender) => CreateUtilityStep(s, u, sender)
    case Claim(id, user, sender) => ClaimRewardStep(s, id, user, sender).post
    case Mark(id, user, sender) => MarkEligibleStep(s, id, user, sender).post
    case ReadConfig => s
    case ReadUtility(_) => s
    case ReadTokenUtility(_) => s
    case Join(_, _, _) => s
    case End(_, _) => s
    case BindOnNft(_, _, _, _) => s
    case Redeem(_, _, _, _) => s
    case Check(_, _) => s
  }

  function RunAll(s: Store, calls: seq<Call>): Store
    decreases |calls|
  {
    if |calls| == 0 then s else RunAll(Execute(s, calls[0]), calls[1..])
  }

  /** The registry as a list, an absent key read as empty. */
  function Registry(s: Store): seq<Utility> {
    if s.registry.Some? then s.registry.value else []
  }

  /** `later` keeps every entry of `earlier` at its index, with at most a smaller pool. */
  ghost predicate Evolved(earlier: seq<Utility>, later: seq<Utility>) {
    |earlier| <= |later|
    && forall i :: 0 <= i < |earlier| ==>
         later[i].reward.totalAmount <= earlier[i].reward.totalAmount
         && later[i].(reward := later[i].reward.(totalAmount := earlier[i].reward.totalAmount)) == earlier[i]
  }

  /** No entry point writes the per-asset index. */
  lemma {:induction false} TokenIndexNeverWritten(s: Store, calls: seq<Call>)
    ensures RunAll(s, calls).tokenUtilities == s.tokenUtilities
    decreases |calls|
  {
    if |calls| > 0 {
      TokenIndexNeverWritten(Execute(s, calls[0]), calls[1..]);
    }
  }

  /**
   * Since the index is never written, from a deployment without it the
   * asset-bound paths never succeed and `check_utility` never answers true.
   */
  lemma NftPathsNeverSucceed(calls: seq<Call>, asset: Identity, id: U64, user: Identity, sender: Identity,
                             isOwner: bool, now: U64)
    ensures var s := RunAll(Deployed(Option.None), calls);
      !ClaimUtilityOnNft(s, asset, id, user, sender, now).Ok?
      && !RedeemUtilityOnNft(s, asset, id, user, isOwner, now).Ok?
      && CheckOutcome(s, asset, id, now) != Ok(true)
  {
    TokenIndexNeverWritten(Deployed(Option.None), calls);
  }

  /** The claim ledger only grows, whatever is invoked (`setup_config` included). */
  lemma {:induction false} ClaimLedgerOnlyGrows(s: Store, calls: seq<Call>)
    ensures s.claimed <= RunAll(s, calls).claimed
    decreases |calls|
  {
    if |calls| > 0 {
      ClaimLedgerOnlyGrows(Execute(s, calls[0]), calls[1..]);
    }
  }

  /** Every invocation but `setup_config` keeps the registry's entries, changing at most a pool, downwards. */
  lemma StepEvolves(s: Store, c: Call)
    requires !c.Setup?
    ensures Evolved(Registry(s), Registry(Execute(s, c)))
  {
    match c
    case Claim(id, user, sender) =>
      var r := ClaimRewardStep(s, id, user, sender);
      if r.outcome.Ok? {
        ClaimRewardSuccess(s, id, user, sender);
      }
    case _ =>
  }

  lemma {:induction false} RunEvolves(s: Store, calls: seq<Call>)
    requires forall i :: 0 <= i < |calls| ==> !calls[i].Setup?
    ensures Evolved(Registry(s), Registry(RunAll(s, calls)))
    decreases |calls|
  {
    if |calls| > 0 {
      var next := Execute(s, calls[0]);
      StepEvolves(s, calls[0]);
      RunEvolves(next, calls[1..]);
      var a, b, c := Registry(s), Registry(next), Registry(RunAll(s, calls));
      forall i | 0 <= i < |a|
        ensures c[i].reward.totalAmount <= a[i].reward.totalAmount
        ensures c[i].(reward := c[i].reward.(totalAmount := a[i].reward.totalAmount)) == a[i]
      {
        assert c[i].(reward := c[i].reward.(totalAmount := b[i].reward.totalAmount)) == b[i];
        assert b[i].(reward := b[i].reward.(totalAmount := a[i].reward.totalAmount)) == a[i];
      }
    }
  }

  /**
   * No call sequence without `setup_config` ends a raffle (`end_raffle` never
   * stores its flag), so a Raffle utility created with `ended` false never pays out.
   */
  lemma RaffleRewardUnclaimable(s: Store, calls: seq<Call>, id: U64, user: Identity, sender: Identity)
    requires forall i :: 0 <= i < |calls| ==> !calls[i].Setup?
    requires Entry(s, id).Some?
    requires Entry(s, id).value.selection == Selection.Raffle && !Entry(s, id).value.raffle.ended
    ensures ClaimRewardStep(RunAll(s, calls), id, user, sender).outcome != Ok(())
  {
    RunEvolves(s, calls);
    var t := RunAll(s, calls);
    var k := Slot(id);
    assert Registry(t)[k].(reward := Registry(t)[k].reward.(totalAmount := Registry(s)[k].reward.totalAmount))
           == Registry(s)[k];
  }

  // ---------------------------------------------------------------- configuration

  /** `get_config` before any setup answers the sentinel; after `setup_config(a)` it answers `a`. */
  lemma ConfigRoundTrip(s: Store, a: Identity, tokenIndex: Option<seq<map<Identity, Utility>>>)
    ensures GetConfig(Deployed(tokenIndex)) == NO_ADMIN
    ensures GetConfig(SetupConfigStep(s, a)) == a
  {
  }

  /**
   * `setup_config` empties the registry: every id stops resolving and the next
   * creation reuses id 0, while claims recorded under that id are kept.
   */
  lemma SetupResetsRegistry(s: Store, a: Identity, id: U64, u: Utility, sender: Identity, user: Identity)
    ensures GetUtility(SetupConfigStep(s, a), id) == Fail(UtilityNotFound)
    ensures GetUtility(CreateUtilityStep(SetupConfigStep(s, a), u, sender), 0) == Ok(u.(provider := sender))
    ensures ClaimKey(id, user) in s.claimed ==> ClaimKey(id, user) in SetupConfigStep(s, a).claimed
  {
  }

  /**
   * A user who claimed under id 0 before a reset cannot claim the utility that
   * takes id 0 after it: the old ledger entry answers `AlreadyClaimed`.
   */
  lemma ClaimSurvivesReset(s: Store, a: Identity, u: Utility, sender: Identity, user: Identity)
    requires ClaimKey(0, user) in s.claimed
    requires u.reward.amountPerWin <= u.reward.totalAmount
    requires u.selection == Selection.All
    ensures ClaimRewardStep(CreateUtilityStep(SetupConfigStep(s, a), u, sender), 0, user, a).outcome
            == Fail(AlreadyClaimed)
  {
    var t := CreateUtilityStep(SetupConfigStep(s, a), u, sender);
    assert Slot(0) == 0;
    assert t.registry.value == [u.(provider := sender)];
  }

  // ---------------------------------------------------------------- registry

  /** One creation: the new utility sits at the old length with `sender` as provider; earlier ids resolve as before. */
  lemma CreateAppends(s: Store, u: Utility, sender: Identity)
    requires |Registry(s)| < U32_LIMIT
    ensures var t := CreateUtilityStep(s, u, sender);
      GetUtility(t, |Registry(s)|) == Ok(u.(provider := sender))
      && forall j: U64 :: j < |Registry(s)| ==> GetUtility(t, j) == GetUtility(s, j)
  {
  }

  datatype Creation = Creation(u: Utility, sender: Identity)

  function CreateAll(s: Store, cs: seq<Creation>): Store
    decreases |cs|
  {
    if |cs| == 0 then s else CreateAll(CreateUtilityStep(s, cs[0].u, cs[0].sender), cs[1..])
  }

  /** The registry entries a list of creations appends, in order. */
  function StoredAll(cs: seq<Creation>): (r: seq<Utility>)
    ensures |r| == |cs|
    decreases |cs|
  {
    if |cs| == 0 then [] else [cs[0].u.(provider := cs[0].sender)] + StoredAll(cs[1..])
  }

  /** The k-th appended entry is the k-th creation's utility with its sender as provider. */
  lemma {:induction false} StoredAt(cs: seq<Creation>, k: nat)
    requires k < |cs|
    ensures StoredAll(cs)[k] == cs[k].u.(provider := cs[k].sender)
    decreases |cs|
  {
    if k > 0 {
      StoredAt(cs[1..], k - 1);
    }
  }

  lemma {:induction false} CreateAllAppends(s: Store, cs: seq<Creation>)
    ensures Registry(CreateAll(s, cs)) == Registry(s) + StoredAll(cs)
    ensures |cs| > 0 ==> CreateAll(s, cs).registry.Some?
    decreases |cs|
  {
    if |cs| > 0 {
      var x := cs[0].u.(provider := cs[0].sender);
      var next := CreateUtilityStep(s, cs[0].u, cs[0].sender);
      assert next.registry == Some(Registry(s) + [x]);
      CreateAllAppends(next, cs[1..]);
      assert StoredAll(cs) == [x] + StoredAll(cs[1..]);
      assert (Registry(s) + [x]) + StoredAll(cs[1..]) == Registry(s) + ([x] + StoredAll(cs[1..]));
    }
  }

  /**
   * Ids are dense and append-only: after n creations on an empty registry the
   * k-th resolves to id k-1 with its creator as provider, and while the
   * registry stays within `u32` indices every earlier id resolves as before.
   */
  lemma IdsAreAppendOnly(s: Store, cs: seq<Creation>, k: nat, j: U64)
    requires |Registry(s)| + |cs| <= U32_LIMIT
    requires k < |cs|
    requires j < |Registry(s)|
    ensures GetUtility(CreateAll(s, cs), |Registry(s)| + k) == Ok(cs[k].u.(provider := cs[k].sender))
    ensures GetUtility(CreateAll(s, cs), j) == GetUtility(s, j)
  {
    CreateAllAppends(s, cs);
    var t := CreateAll(s, cs);
    var n := |Registry(s)|;
    var r := Registry(t);
    assert t.registry == Some(r);
    var newId: U64 := n + k;
    assert Slot(newId) == newId;
    assert r[newId] == StoredAll(cs)[k];
    StoredAt(cs, k);
    assert Slot(j) == j;
    assert r[j] == Registry(s)[j];
  }

  // ---------------------------------------------------------------- raffle

  /** `join_raffle` error order: provider, then deadline (inclusive), then selection and flag. */
  lemma JoinRaffleErrorOrder(s: Store, id: U64, sender: Identity, user: Identity, now: U64)
    requires s.registry.Some?
    ensures Entry(s, id).None? ==> JoinRaffle(s, id, sender, user, now) == Abort
    ensures Entry(s, id).Some? ==> var u := Entry(s, id).value;
      JoinRaffle(s, id, sender, user, now) ==
        if u.provider != sender then Fail(NotAuthorized)
        else if u.offerExpiry < now then Fail(RaffleExpired)
        else if u.selection != Selection.Raffle || u.raffle.ended then Fail(InvalidRaffleSelection)
        else Ok(())
  {
  }

  /** `end_raffle` error order: already ended, provider, selection, then deadline not reached. */
  lemma EndRaffleErrorOrder(s: Store, id: U64, sender: Identity, now: U64)
    ensures s.registry.Some? && Entry(s, id).None? ==> EndRaffle(s, id, sender, now) == Abort
    ensures Entry(s, id).Some? ==> var u := Entry(s, id).value;
      EndRaffle(s, id, sender, now) ==
        if u.raffle.ended then Fail(RaffleAlreadyEnded)
        else if u.provider != sender then Fail(NotAuthorized)
        else if u.selection != Selection.Raffle then Fail(InvalidRaffleSelection)
        else if now < u.offerExpiry then Fail(RaffleNotEnded)
        else Ok(())
  {
  }

  /** A successful `end_raffle` stores nothing, so the same call succeeds again instead of `RaffleAlreadyEnded`. */
  lemma EndRaffleRepeats(s: Store, id: U64, sender: Identity, now: U64, later: U64)
    requires EndRaffle(s, id, sender, now).Ok?
    requires now <= later
    ensures Execute(s, End(id, sender)) == s
    ensures EndRaffle(Execute(s, End(id, sender)), id, sender, later).Ok?
  {
  }

  // ---------------------------------------------------------------- reward claims

  /** `claim_reward` error order: admin, pool, raffle flag, ledger, then receipt kind. */
  lemma ClaimRewardErrorOrder(s: Store, id: U64, user: Identity, sender: Identity)
    ensures s.admin.None? ==> ClaimRewardStep(s, id, user, sender).outcome == Abort
    ensures s.admin.Some? && sender != s.admin.value ==>
      ClaimRewardStep(s, id, user, sender).outcome == Fail(NotAuthorized)
    ensures s.admin.Some? && sender == s.admin.value && Entry(s, id).None? ==>
      ClaimRewardStep(s, id, user, sender).outcome == Abort
    ensures s.admin.Some? && sender == s.admin.value && Entry(s, id).Some? ==> var u := Entry(s, id).value;
      ClaimRewardStep(s, id, user, sender).outcome ==
        if u.reward.totalAmount < u.reward.amountPerWin then Fail(AllRewardsClaimed)
        else if u.selection == Selection.Raffle && !u.raffle.ended then Fail(RaffleNotEnded)
        else if ClaimKey(id, user) in s.claimed then Fail(AlreadyClaimed)
        else if |u.reward.tokenAddresses| == 0 then Abort
        else if u.reward.receipt == Receipt.None || u.reward.receipt == HTSToken then Fail(InvalidReceiptType)
        else Ok(())
  {
  }

  /**
   * A successful claim takes exactly one payout from that utility's pool, marks
   * `(id, user)` claimed, asks the first token for one payout to `user`, and
   * changes nothing else.
   */
  lemma ClaimRewardSuccess(s: Store, id: U64, user: Identity, sender: Identity)
    requires ClaimRewardStep(s, id, user, sender).outcome.Ok?
    ensures var t := ClaimRewardStep(s, id, user, sender).post;
      var u := Entry(s, id).value;
      t.registry.Some? && |t.registry.value| == |s.registry.value|
      && Entry(t, id).value.reward.totalAmount == u.reward.totalAmount - u.reward.amountPerWin
      && Entry(t, id).value == Charged(u)
      && (forall i :: 0 <= i < |s.registry.value| && i != Slot(id) ==> t.registry.value[i] == s.registry.value[i])
      && t.claimed == s.claimed + {ClaimKey(id, user)} && ClaimKey(id, user) !in s.claimed
      && t.issued == s.issued + [if u.reward.receipt == MintToken
                                 then Mint(u.reward.tokenAddresses[0], user, u.reward.amountPerWin)
                                 else Transfer(u.reward.tokenAddresses[0], user, u.reward.amountPerWin)]
      && t.admin == s.admin && t.eligible == s.eligible && t.tokenUtilities == s.tokenUtilities
  {
  }

  /**
   * A claim whose receipt kind is None or HTSToken fails `InvalidReceiptType`
   * with neither the pool decrement nor the claim mark committed.
   */
  lemma UnsupportedReceiptRollsBack(s: Store, id: U64, user: Identity, sender: Identity)
    requires s.admin == Some(sender) && Entry(s, id).Some?
    requires var u := Entry(s, id).value;
      u.reward.amountPerWin <= u.reward.totalAmount && (u.selection == Selection.Raffle ==> u.raffle.ended)
      && ClaimKey(id, user) !in s.claimed && |u.reward.tokenAddresses| > 0
      && (u.reward.receipt == Receipt.None || u.reward.receipt == HTSToken)
    ensures ClaimRewardStep(s, id, user, sender) == Reply(Fail(InvalidReceiptType), s)
    ensures ClaimKey(id, user) !in ClaimRewardStep(s, id, user, sender).post.claimed
  {
  }

  /**
   * Claims are idempotent: repeating a successful claim fails and stores
   * nothing; the pool stays at its value after the first claim. The pool test
   * comes first, so the repeat reports `AllRewardsClaimed` when the first claim
   * drained it and `AlreadyClaimed` otherwise.
   */
  lemma ClaimTwice(s: Store, id: U64, user: Identity, sender: Identity)
    requires ClaimRewardStep(s, id, user, sender).outcome.Ok?
    ensures var p := ClaimRewardStep(s, id, user, sender).post;
      var again := ClaimRewardStep(p, id, user, sender);
      var left := Entry(p, id).value.reward;
      again.post == p
      && left.totalAmount == Entry(s, id).value.reward.totalAmount - left.amountPerWin
      && again.outcome == if left.totalAmount < left.amountPerWin then Fail(AllRewardsClaimed)
                          else Fail(AlreadyClaimed)
  {
    ClaimRewardSuccess(s, id, user, sender);
  }

  /**
   * The ledger is keyed by the full `u64` id and the registry by its low 32
   * bits, so `id` and `id + 2^32` name the same utility but separate ledger
   * entries: the same user is paid twice from the same pool.
   */
  lemma ClaimThroughAliasedId(s: Store, id: U64, user: Identity, sender: Identity)
    requires Claimable(s, id, user, sender)
    requires id + U32_LIMIT < U64_LIMIT && ClaimKey(id + U32_LIMIT, user) !in s.claimed
    requires 2 * Entry(s, id).value.reward.amountPerWin <= Entry(s, id).value.reward.totalAmount
    ensures var first := ClaimRewardStep(s, id, user, sender);
      var second := ClaimRewardStep(first.post, id + U32_LIMIT, user, sender);
      first.outcome.Ok? && second.outcome.Ok?
      && Entry(second.post, id).value.reward.totalAmount
         == Entry(s, id).value.reward.totalAmount - 2 * Entry(s, id).value.reward.amountPerWin
  {
    var alias: U64 := id + U32_LIMIT;
    assert Slot(alias) == Slot(id);
    var first := ClaimRewardStep(s, id, user, sender);
    ClaimRewardSuccess(s, id, user, sender);
    assert Entry(first.post, alias) == Entry(first.post, id);
    assert ClaimKey(alias, user) !in first.post.claimed;
    assert Claimable(first.post, alias, user, sender);
    ClaimRewardSuccess(first.post, alias, user, sender);
  }

  /** Claims by each user in turn, stopping at the first that does not succeed. */
  function ClaimAll(s: Store, id: U64, users: seq<Identity>, sender: Identity): Reply<()>
    decreases |users|
  {
    if |users| == 0 then Reply(Ok(()), s)
    else
      var first := ClaimRewardStep(s, id, users[0], sender);
      if !first.outcome.Ok? then first else ClaimAll(first.post, id, users[1..], sender)
  }

  /** Everything a claim needs that does not depend on the user or the pool. */
  predicate ReadyToPay(s: Store, id: U64, sender: Identity) {
    s.admin == Some(sender)
    && Entry(s, id).Some?
    && var u := Entry(s, id).value;
    (u.selection == Selection.Raffle ==> u.raffle.ended)
    && |u.reward.tokenAddresses| > 0
    && (u.reward.receipt == MintToken || u.reward.receipt == External)
  }

  /** The ledger keys of `users` for one id. */
  function KeysOf(id: U64, users: seq<Identity>): set<ClaimKey> {
    set i | 0 <= i < |users| :: ClaimKey(id, users[i])
  }

  /** The utility with its pool lowered by `n` payouts. */
  function PaidOut(u: Utility, n: nat): Utility
    requires n * u.reward.amountPerWin <= u.reward.totalAmount
  {
    u.(reward := u.reward.(totalAmount := u.reward.totalAmount - n * u.reward.amountPerWin))
  }

  /** One funded claim by a user who has not claimed keeps the utility ready and takes one payout. */
  lemma ClaimKeepsReady(s: Store, id: U64, user: Identity, sender: Identity)
    requires ReadyToPay(s, id, sender)
    requires ClaimKey(id, user) !in s.claimed
    requires Entry(s, id).value.reward.amountPerWin <= Entry(s, id).value.reward.totalAmount
    ensures var r := ClaimRewardStep(s, id, user, sender);
      r.outcome.Ok? && ReadyToPay(r.post, id, sender)
      && Entry(r.post, id).value == Charged(Entry(s, id).value)
      && r.post.claimed == s.claimed + {ClaimKey(id, user)}
      && |r.post.issued| == |s.issued| + 1
  {
    assert Claimable(s, id, user, sender);
    ClaimRewardSuccess(s, id, user, sender);
  }

  lemma KeysOfCons(id: U64, users: seq<Identity>)
    requires |users| > 0
    ensures KeysOf(id, users) == {ClaimKey(id, users[0])} + KeysOf(id, users[1..])
  {
    var rest := users[1..];
    forall k | k in KeysOf(id, users) ensures k in {ClaimKey(id, users[0])} + KeysOf(id, rest) {
      var i :| 0 <= i < |users| && k == ClaimKey(id, users[i]);
      if i > 0 { assert k == ClaimKey(id, rest[i - 1]); }
    }
    forall k | k in KeysOf(id, rest) ensures k in KeysOf(id, users) {
      var i :| 0 <= i < |rest| && k == ClaimKey(id, rest[i]);
      assert k == ClaimKey(id, users[i + 1]);
    }
  }

  lemma PaidOutStep(u: Utility, n: nat)
    requires 0 < n && n * u.reward.amountPerWin <= u.reward.totalAmount
    ensures u.reward.amountPerWin <= u.reward.totalAmount
    ensures (n - 1) * Charged(u).reward.amountPerWin <= Charged(u).reward.totalAmount
    ensures PaidOut(Charged(u), n - 1) == PaidOut(u, n)
  {
    var a, t := u.reward.amountPerWin, u.reward.totalAmount;
    var m: nat := n - 1;
    assert n * a == m * a + a by { assert n == m + 1; }
    assert 0 <= m * a;
    var c := Charged(u);
    assert c.reward.totalAmount == t - a;
    assert c.reward.totalAmount - m * c.reward.amountPerWin == t - n * a;
  }

  /**
   * Pool conservation: k claims by distinct users who have not claimed, funded
   * by the pool, all succeed and leave `total_amount - k * amount_per_win`.
   */
  lemma {:induction false} PoolConservation(s: Store, id: U64, users: seq<Identity>, sender: Identity)
    requires ReadyToPay(s, id, sender)
    requires forall i, j :: 0 <= i < j < |users| ==> users[i] != users[j]
    requires forall i :: 0 <= i < |users| ==> ClaimKey(id, users[i]) !in s.claimed
    requires |users| * Entry(s, id).value.reward.amountPerWin <= Entry(s, id).value.reward.totalAmount
    ensures var r := ClaimAll(s, id, users, sender);
      r.outcome.Ok? && ReadyToPay(r.post, id, sender)
      && Entry(r.post, id).value == PaidOut(Entry(s, id).value, |users|)
      && r.post.claimed == s.claimed + KeysOf(id, users)
      && |r.post.issued| == |s.issued| + |users|
    decreases |users|
  {
    var u := Entry(s, id).value;
    if |users| == 0 {
      assert PaidOut(u, 0) == u;
      assert KeysOf(id, users) == {};
    } else {
      PaidOutStep(u, |users|);
      ClaimKeepsReady(s, id, users[0], sender);
      var first := ClaimRewardStep(s, id, users[0], sender);
      var rest := users[1..];
      assert forall i :: 0 <= i < |rest| ==> rest[i] == users[i + 1];
      PoolConservation(first.post, id, rest, sender);
      KeysOfCons(id, users);
    }
  }

  /**
   * A pool funded for exactly n payouts is exhausted by n distinct claims: the
   * next claim, by anyone, fails `AllRewardsClaimed` (1000 at 100 each: ten
   * claims succeed, the eleventh fails).
   */
  lemma PoolExhaustion(s: Store, id: U64, users: seq<Identity>, sender: Identity, next: Identity)
    requires ReadyToPay(s, id, sender)
    requires forall i, j :: 0 <= i < j < |users| ==> users[i] != users[j]
    requires forall i :: 0 <= i < |users| ==> ClaimKey(id, users[i]) !in s.claimed
    requires Entry(s, id).value.reward.amountPerWin > 0
    requires |users| * Entry(s, id).value.reward.amountPerWin == Entry(s, id).value.reward.totalAmount
    ensures var r := ClaimAll(s, id, users, sender);
      r.outcome.Ok? && Entry(r.post, id).Some? && Entry(r.post, id).value.reward.totalAmount == 0
      && ClaimRewardStep(r.post, id, next, sender) == Reply(Fail(AllRewardsClaimed), r.post)
  {
    PoolConservation(s, id, users, sender);
  }

  // ---------------------------------------------------------------- eligibility

  /** Marking the same pair twice appends two entries: no de-duplication. */
  lemma MarkEligibleTwice(s: Store, id: U64, user: Identity, sender: Identity)
    requires s.admin == Some(sender)
    ensures var once := MarkEligibleStep(s, id, user, sender).post;
      MarkEligibleStep(once, id, user, sender).post.eligible == s.eligible + [map[user := id], map[user := id]]
  {
  }

  // ---------------------------------------------------------------- per-asset instances

  /** `get_token_utility` answers from the first map holding the asset, whatever later maps hold. */
  lemma FirstMapWins(s: Store, asset: Identity, i: nat)
    requires s.tokenUtilities.Some? && i < |s.tokenUtilities.value|
    requires asset in s.tokenUtilities.value[i]
    requires forall j :: 0 <= j < i ==> asset !in s.tokenUtilities.value[j]
    ensures TokenUtilityOf(s, asset) == Ok(s.tokenUtilities.value[i][asset])
  {
    var r := FirstHolding(s.tokenUtilities.value, asset);
    assert r.Some?;
    assert r.value == i;
  }

  /**
   * `claim_utitlity_on_nft` succeeds only when the admin is also the
   * utility's provider, and the admin check comes first, as a plain panic.
   */
  lemma BindNeedsAdminProvider(s: Store, asset: Identity, id: U64, user: Identity, sender: Identity, now: U64)
    ensures s.admin != Some(sender) ==> ClaimUtilityOnNft(s, asset, id, user, sender, now) == Abort
    ensures ClaimUtilityOnNft(s, asset, id, user, sender, now).Ok? ==>
      s.admin.Some? && Entry(s, id).value.provider == s.admin.value
  {
  }

  /** Redemption's expiry failure and `check_utility`'s verdict agree. */
  lemma RedeemExpiryAgreesWithCheck(s: Store, asset: Identity, id: U64, user: Identity, now: U64)
    requires Entry(s, id).Some? && TokenUtilityOf(s, asset).Ok?
    ensures RedeemUtilityOnNft(s, asset, id, user, true, now) == Fail(UtilityExpired) ==>
      CheckOutcome(s, asset, id, now) == Ok(false)
    ensures Expired(Entry(s, id).value, TokenUtilityOf(s, asset).value, now) ==>
      RedeemUtilityOnNft(s, asset, id, user, true, now) == Fail(UtilityExpired)
      && CheckOutcome(s, asset, id, now) == Ok(false)
  {
  }

  /** A successful redemption stores nothing, so the next one sees the same usage and succeeds as well. */
  lemma RedeemNeverConsumes(s: Store, asset: Identity, id: U64, user: Identity, now: U64)
    requires RedeemUtilityOnNft(s, asset, id, user, true, now).Ok?
    ensures var t := Execute(s, Redeem(asset, id, user, true));
      t == s && RedeemUtilityOnNft(t, asset, id, user, true, now).Ok?
  {
  }

  /**
   * The inverted usage test: with a Limited instance whose template usage is
   * spent, redemption fails `UsageExceeded` while `check_utility` says true.
   */
  lemma CheckDisagreesWithRedeem(template: Utility, instance: Utility, asset: Identity, now: U64)
    requires template.usageType == Limited && template.usage == 0
    requires instance.usageType == Limited && instance.usage > 0
    requires template.expiryType != ExpiryType.None
    ensures var s := Store(Option.None, Some([template]), {}, [], Some([map[asset := instance]]), []);
      RedeemUtilityOnNft(s, asset, 0, asset, true, now) == Fail(UsageExceeded)
      && CheckOutcome(s, asset, 0, now) == Ok(true)
  {
    var s := Store(Option.None, Some([template]), {}, [], Some([map[asset := instance]]), []);
    FirstMapWins(s, asset, 0);
  }
}
