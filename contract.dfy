/**
 * The `UtilityContract` entry points over the contract's persistent storage.
 *
 * `Store` is the whole of the storage one invocation can see: the `ADMIN` slot,
 * the `U_STORAGE` registry (the index of an entry is its utility id), the
 * `("claimed", utility_id, user)` ledger, the `ELIGIBLE` list, the `TOKEN_U`
 * per-asset index, and a log of the token issuances the contract asks the
 * token contracts for.
 *
 * A Soroban invocation is all-or-nothing: a panic, whether a contract error
 * (`panic_with_error!`) or a host failure (`unwrap()` on nothing, `panic!`,
 * an overflowing `u64` add), rolls back every write the invocation made. Each
 * step function therefore returns the old store on every outcome but `Ok`, and
 * the class methods stage their writes in locals and store them only at the end.
 */
module Contract {
  import opened Wrappers
  import opened Structs

  /** What `get_config` answers when no admin is stored. */
  const NO_ADMIN: string := "No Admin Set"

  /** How an invocation ends: a value, a contract error, or a host panic. */
  datatype Outcome<+T> = Ok(value: T) | Fail(error: UtilityError) | Abort

  /** Key of the claim ledger: the full `u64` id as passed in, and the user. */
  datatype ClaimKey = ClaimKey(utilityId: U64, user: Identity)

  /** A request made to a token contract: `mint` (MintToken) or `transfer_from` (External). */
  datatype Issuance =
    | Mint(token: Identity, to: Identity, amount: U64)
    | Transfer(token: Identity, to: Identity, amount: U64)

  datatype Store = Store(
    admin: Option<Identity>,
    registry: Option<seq<Utility>>,
    claimed: set<ClaimKey>,
    eligible: seq<map<Identity, U64>>,
    tokenUtilities: Option<seq<map<Identity, Utility>>>,
    issued: seq<Issuance>)

  /** The outcome of a state-changing entry point together with the storage after it. */
  datatype Reply<+T> = Reply(outcome: Outcome<T>, post: Store)

  /** Storage of a freshly deployed contract, with the per-asset index as given. */
  function Deployed(tokenIndex: Option<seq<map<Identity, Utility>>>): Store {
    Store(Option.None, Option.None, {}, [], tokenIndex, [])
  }

  /** `utility_id as u32`: the registry index an id designates, its low 32 bits. */
  function Slot(id: U64): (i: nat)
    ensures i < U32_LIMIT
    ensures id < U32_LIMIT ==> i == id
    ensures id >= U32_LIMIT ==> i < id
  {
    id % U32_LIMIT
  }

  /** `Vec::get(utility_id as u32)` on a present registry. */
  function Entry(s: Store, id: U64): Option<Utility> {
    if s.registry.Some? && Slot(id) < |s.registry.value| then Some(s.registry.value[Slot(id)])
    else Option.None
  }

  // ---------------------------------------------------------------- configuration

  /** `setup_config`: stores the admin and replaces the registry by an empty one. */
  function SetupConfigStep(s: Store, newAdmin: Identity): (t: Store)
    ensures t.admin == Some(newAdmin) && t.registry == Some([])
    ensures t.claimed == s.claimed && t.eligible == s.eligible
    ensures t.tokenUtilities == s.tokenUtilities && t.issued == s.issued
  {
    s.(admin := Some(newAdmin), registry := Some([]))
  }

  /** `get_config`: the stored admin, or the sentinel text when none is stored. */
  function GetConfig(s: Store): (r: string)
    ensures s.admin.Some? ==> r == s.admin.value
    ensures s.admin.None? ==> r == NO_ADMIN
  {
    match s.admin
    case Some(a) => a
    case None => NO_ADMIN
  }

  // ---------------------------------------------------------------- registry

  /** `create_utility`: appends the utility with `sender` as its provider; no validation runs. */
  function CreateUtilityStep(s: Store, u: Utility, sender: Identity): (t: Store)
    ensures t.registry.Some?
    ensures s.registry.Some? ==> |t.registry.value| == |s.registry.value| + 1
    ensures s.registry.None? ==> t.registry.value == [u.(provider := sender)]
    ensures t.registry.value[|t.registry.value| - 1] == u.(provider := sender)
    ensures s.registry.Some? ==> t.registry.value[..|s.registry.value|] == s.registry.value
    ensures t.admin == s.admin && t.claimed == s.claimed && t.eligible == s.eligible
    ensures t.tokenUtilities == s.tokenUtilities && t.issued == s.issued
  {
    var existing := if s.registry.Some? then s.registry.value else [];
    s.(registry := Some(existing + [u.(provider := sender)]))
  }

  /** `get_utility`: the entry at `utility_id as u32`; `UtilityNotFound` when there is none. */
  function GetUtility(s: Store, id: U64): (r: Outcome<Utility>)
    ensures r.Ok? <==> s.registry.Some? && Slot(id) < |s.registry.value|
    ensures r.Ok? ==> r.value == s.registry.value[Slot(id)]
    ensures !r.Ok? ==> r == Fail(UtilityNotFound)
  {
    if s.registry.None? then Fail(UtilityNotFound)
    else if Slot(id) >= |s.registry.value| then Fail(UtilityNotFound)
    else Ok(s.registry.value[Slot(id)])
  }

  // ---------------------------------------------------------------- raffle

  /**
   * `join_raffle`: checks only, nothing is stored (the join is an event).
   * Joining exactly at `offer_expiry` is allowed.
   */
  function JoinRaffle(s: Store, id: U64, sender: Identity, user: Identity, now: U64): (r: Outcome<()>)
    ensures r.Ok? <==>
      Entry(s, id).Some? && Entry(s, id).value.provider == sender && now <= Entry(s, id).value.offerExpiry
      && Entry(s, id).value.selection == Selection.Raffle && !Entry(s, id).value.raffle.ended
    ensures r == Fail(UtilityNotFound) <==> s.registry.None?
  {
    if s.registry.None? then Fail(UtilityNotFound)
    else if Slot(id) >= |s.registry.value| then Abort
    else
      var u := s.registry.value[Slot(id)];
      if u.provider != sender then Fail(NotAuthorized)
      else if u.offerExpiry < now then Fail(RaffleExpired)
      else if u.selection != Selection.Raffle || u.raffle.ended then Fail(InvalidRaffleSelection)
      else Ok(())
  }

  /**
   * `end_raffle`: the guards, then `ended` is set on a local copy that is never
   * written back, so a successful call leaves the storage as it was.
   */
  function EndRaffle(s: Store, id: U64, sender: Identity, now: U64): (r: Outcome<()>)
    ensures r.Ok? <==>
      Entry(s, id).Some? && !Entry(s, id).value.raffle.ended && Entry(s, id).value.provider == sender
      && Entry(s, id).value.selection == Selection.Raffle && Entry(s, id).value.offerExpiry <= now
    ensures r == Fail(UtilityNotFound) <==> s.registry.None?
  {
    if s.registry.None? then Fail(UtilityNotFound)
    else if Slot(id) >= |s.registry.value| then Abort
    else
      var u := s.registry.value[Slot(id)];
      if u.raffle.ended then Fail(RaffleAlreadyEnded)
      else if u.provider != sender then Fail(NotAuthorized)
      else if u.selection != Selection.Raffle then Fail(InvalidRaffleSelection)
      else if now < u.offerExpiry then Fail(RaffleNotEnded)
      else Ok(())
  }

  // ---------------------------------------------------------------- reward claims

  /** The utility with one payout taken from its pool; meaningful when the pool covers it. */
  function Charged(u: Utility): (c: Utility)
    requires u.reward.amountPerWin <= u.reward.totalAmount
    ensures c.reward.totalAmount + u.reward.amountPerWin == u.reward.totalAmount
    ensures c.(reward := c.reward.(totalAmount := u.reward.totalAmount)) == u
  {
    u.(reward := u.reward.(totalAmount := u.reward.totalAmount - u.reward.amountPerWin))
  }

  /** Everything `claim_reward` requires of the caller and the stored utility, in declarative form. */
  predicate Claimable(s: Store, id: U64, user: Identity, sender: Identity) {
    s.admin == Some(sender)
    && Entry(s, id).Some?
    && var u := Entry(s, id).value;
    u.reward.amountPerWin <= u.reward.totalAmount
    && (u.selection == Selection.Raffle ==> u.raffle.ended)
    && ClaimKey(id, user) !in s.claimed
    && |u.reward.tokenAddresses| > 0
    && (u.reward.receipt == MintToken || u.reward.receipt == External)
  }

  /**
   * `claim_reward`. The pool decrement (before the raffle check) and the claim
   * mark (before the receipt dispatch) happen on the way; a later panic rolls
   * both back, so they are committed only together, on success.
   */
  function ClaimRewardStep(s: Store, id: U64, user: Identity, sender: Identity): (r: Reply<()>)
    ensures !r.outcome.Ok? ==> r.post == s
    ensures r.outcome.Ok? <==> Claimable(s, id, user, sender)
  {
    if s.admin.None? then Reply(Abort, s)
    else if sender != s.admin.value then Reply(Fail(NotAuthorized), s)
    else if s.registry.None? || Slot(id) >= |s.registry.value| then Reply(Abort, s)
    else
      var u := s.registry.value[Slot(id)];
      if u.reward.totalAmount < u.reward.amountPerWin then Reply(Fail(AllRewardsClaimed), s)
      else
        var charged := Charged(u);
        if u.selection == Selection.Raffle && !u.raffle.ended then Reply(Fail(RaffleNotEnded), s)
        else if ClaimKey(id, user) in s.claimed then Reply(Fail(AlreadyClaimed), s)
        else if |u.reward.tokenAddresses| == 0 then Reply(Abort, s)
        else
          var token := u.reward.tokenAddresses[0];
          var committed := s.(registry := Some(s.registry.value[Slot(id) := charged]),
                              claimed := s.claimed + {ClaimKey(id, user)});
          match u.reward.receipt
          case None => Reply(Fail(InvalidReceiptType), s)
          case HTSToken => Reply(Fail(InvalidReceiptType), s)
          case MintToken =>
            Reply(Ok(()), committed.(issued := s.issued + [Mint(token, user, u.reward.amountPerWin)]))
          case External =>
            Reply(Ok(()), committed.(issued := s.issued + [Transfer(token, user, u.reward.amountPerWin)]))
  }

  // ---------------------------------------------------------------- eligibility

  /** `mark_eligible`: for the admin only, appends a one-entry map `user -> utility_id`. */
  function MarkEligibleStep(s: Store, id: U64, user: Identity, sender: Identity): (r: Reply<()>)
    ensures !r.outcome.Ok? ==> r.post == s
    ensures r.outcome.Ok? <==> s.admin == Some(sender)
    ensures r.outcome == Fail(NotAuthorized) <==> s.admin.Some? && s.admin.value != sender
    ensures s.admin.None? ==> r.outcome == Abort
    ensures r.outcome.Ok? ==> r.post == s.(eligible := s.eligible + [map[user := id]])
  {
    if s.admin.None? then Reply(Abort, s)
    else if sender != s.admin.value then Reply(Fail(NotAuthorized), s)
    else Reply(Ok(()), s.(eligible := s.eligible + [map[user := id]]))
  }

  // ---------------------------------------------------------------- per-asset instances

  /** Index of the first map of the per-asset list that holds `asset`. */
  function FirstHolding(ms: seq<map<Identity, Utility>>, asset: Identity): (r: Option<nat>)
    ensures r.Some? ==> r.value < |ms| && asset in ms[r.value]
    ensures r.Some? ==> forall j :: 0 <= j < r.value ==> asset !in ms[j]
    ensures r.None? ==> forall j :: 0 <= j < |ms| ==> asset !in ms[j]
    decreases |ms|
  {
    if |ms| == 0 then Option.None
    else if asset in ms[0] then Some(0)
    else
      match FirstHolding(ms[1..], asset)
      case None => Option.None
      case Some(i) => Some(i + 1)
  }

  /**
   * What `get_token_utility` answers: a host panic when the index key is absent,
   * the entry of the first map holding the asset, or `UtilityNotFound`.
   */
  function TokenUtilityOf(s: Store, asset: Identity): (r: Outcome<Utility>)
    ensures r.Abort? <==> s.tokenUtilities.None?
    ensures r.Ok? ==> exists i :: 0 <= i < |s.tokenUtilities.value| && asset in s.tokenUtilities.value[i]
                                 && r.value == s.tokenUtilities.value[i][asset]
    ensures r.Fail? ==> r.error == UtilityNotFound
                        && forall m :: m in s.tokenUtilities.value ==> asset !in m
  {
    if s.tokenUtilities.None? then Abort
    else
      var ms := s.tokenUtilities.value;
      match FirstHolding(ms, asset)
      case None => Fail(UtilityNotFound)
      case Some(i) => Ok(ms[i][asset])
  }

  /**
   * The instance record `claim_utitlity_on_nft` computes from a template: the
   * template's usage when the instance is Limited; expiry `expiry + now` for
   * TimeBased (a host panic when that overflows `u64`), `expiry` for DateBased,
   * unchanged for None. Nothing else of the instance changes.
   */
  function BindInstance(template: Utility, instance: Utility, now: U64): (r: Outcome<Utility>)
    ensures r.Abort? <==> template.expiryType == TimeBased && template.expiry + now >= U64_LIMIT
    ensures !r.Fail?
    ensures r.Ok? ==> r.value.usage == if instance.usageType == Limited then template.usage else instance.usage
    ensures r.Ok? ==> r.value.expiry == match template.expiryType
                                        case TimeBased => template.expiry + now
                                        case DateBased => template.expiry
                                        case None => instance.expiry
    ensures r.Ok? ==> r.value.(usage := instance.usage, expiry := instance.expiry) == instance
  {
    var withUsage := if instance.usageType == Limited then instance.(usage := template.usage) else instance;
    match template.expiryType
    case TimeBased =>
      if template.expiry + now < U64_LIMIT then Ok(withUsage.(expiry := template.expiry + now)) else Abort
    case DateBased => Ok(withUsage.(expiry := template.expiry))
    case None => Ok(withUsage)
  }

  /**
   * `claim_utitlity_on_nft`: the admin check (a plain panic), the registry reads,
   * the provider check, the index lookup, then the binding on a local copy that
   * is never stored, so a successful call changes nothing.
   */
  function ClaimUtilityOnNft(s: Store, asset: Identity, id: U64, user: Identity, sender: Identity, now: U64)
    : (r: Outcome<()>)
    ensures r == Fail(NotAuthorized) <==>
      s.admin == Some(sender) && Entry(s, id).Some? && Entry(s, id).value.provider != sender
    ensures r.Fail? ==> r.error in {NotAuthorized, UtilityNotFound}
    ensures r.Ok? <==>
      s.admin == Some(sender) && Entry(s, id).Some? && Entry(s, id).value.provider == sender
      && TokenUtilityOf(s, asset).Ok?
      && !(Entry(s, id).value.expiryType == TimeBased && Entry(s, id).value.expiry + now >= U64_LIMIT)
    ensures r == Fail(UtilityNotFound) <==>
      s.admin == Some(sender) && Entry(s, id).Some? && Entry(s, id).value.provider == sender
      && TokenUtilityOf(s, asset).Fail?
  {
    if s.admin.None? || sender != s.admin.value then Abort
    else if s.registry.None? || Slot(id) >= |s.registry.value| then Abort
    else
      var u := s.registry.value[Slot(id)];
      if u.provider != sender then Fail(NotAuthorized)
      else
        match TokenUtilityOf(s, asset)
        case Abort => Abort
        case Fail(e) => Fail(e)
        case Ok(instance) =>
          match BindInstance(u, instance, now)
          case Ok(_) => Ok(())
          case Fail(e) => Fail(e)
          case Abort => Abort
  }

  /** The expiry test shared by redemption and the check: template without expiry type, instance past its expiry. */
  predicate Expired(template: Utility, instance: Utility, now: U64) {
    template.expiryType == ExpiryType.None && instance.expiry < now
  }

  /**
   * `redeem_utility_on_nft`: `isOwner` is the asset contract's answer to
   * `authorized(user)`. The usage decrement is on a local copy of the template
   * and is never stored, so a successful call changes nothing.
   */
  function RedeemUtilityOnNft(s: Store, asset: Identity, id: U64, user: Identity, isOwner: bool, now: U64)
    : (r: Outcome<()>)
    ensures r == Fail(NotAuthorized) <==> !isOwner
    ensures r.Ok? <==>
      isOwner && Entry(s, id).Some? && TokenUtilityOf(s, asset).Ok?
      && !Expired(Entry(s, id).value, TokenUtilityOf(s, asset).value, now)
      && (TokenUtilityOf(s, asset).value.usageType == Limited ==> Entry(s, id).value.usage > 0)
    ensures isOwner && Entry(s, id).None? ==> r == Abort
    ensures isOwner && Entry(s, id).Some? && !TokenUtilityOf(s, asset).Ok? ==>
      r == (if TokenUtilityOf(s, asset).Abort? then Abort else Fail(UtilityNotFound))
    ensures isOwner && Entry(s, id).Some? && TokenUtilityOf(s, asset).Ok? ==>
      var u, instance := Entry(s, id).value, TokenUtilityOf(s, asset).value;
      r == if Expired(u, instance, now) then Fail(UtilityExpired)
           else if instance.usageType == Limited && u.usage == 0 then Fail(UsageExceeded)
           else Ok(())
  {
    if !isOwner then Fail(NotAuthorized)
    else if s.registry.None? || Slot(id) >= |s.registry.value| then Abort
    else
      var u := s.registry.value[Slot(id)];
      match TokenUtilityOf(s, asset)
      case Abort => Abort
      case Fail(e) => Fail(e)
      case Ok(instance) =>
        if Expired(u, instance, now) then Fail(UtilityExpired)
        else if instance.usageType == Limited && u.usage == 0 then Fail(UsageExceeded)
        else Ok(())
  }

  /**
   * The verdict of `check_utility` once template and instance are found: false
   * when expired, or when the TEMPLATE is not Limited and the instance usage is 0.
   */
  predicate Usable(template: Utility, instance: Utility, now: U64) {
    !Expired(template, instance, now) && !(template.usageType != Limited && instance.usage == 0)
  }

  /** What `check_utility` answers: false without a registry, `UtilityNotFound` for an absent id. */
  function CheckOutcome(s: Store, asset: Identity, id: U64, now: U64): (r: Outcome<bool>)
    ensures s.registry.None? ==> r == Ok(false)
    ensures s.registry.Some? && Entry(s, id).None? ==> r == Fail(UtilityNotFound)
    ensures Entry(s, id).Some? && TokenUtilityOf(s, asset).Ok? ==>
      r == Ok(Usable(Entry(s, id).value, TokenUtilityOf(s, asset).value, now))
    ensures Entry(s, id).Some? && !TokenUtilityOf(s, asset).Ok? ==>
      r == (if s.tokenUtilities.None? then Abort else Fail(UtilityNotFound))
  {
    if s.registry.None? then Ok(false)
    else if Slot(id) >= |s.registry.value| then Fail(UtilityNotFound)
    else
      match TokenUtilityOf(s, asset)
      case Abort => Abort
      case Fail(e) => Fail(e)
      case Ok(instance) => Ok(Usable(s.registry.value[Slot(id)], instance, now))
  }

  // ---------------------------------------------------------------- the contract object

  /** The deployed contract: its persistent storage, updated in place by the entry points. */
  class UtilityContract {
    var admin: Option<Identity>
    var registry: Option<seq<Utility>>
    var claimed: set<ClaimKey>
    var eligible: seq<map<Identity, U64>>
    var tokenUtilities: Option<seq<map<Identity, Utility>>>
    var issued: seq<Issuance>

    function Snapshot(): Store
      reads this
    {
      Store(admin, registry, claimed, eligible, tokenUtilities, issued)
    }

    /** A fresh deployment: nothing stored except the per-asset index, which is given. */
    constructor (tokenIndex: Option<seq<map<Identity, Utility>>>)
      ensures Snapshot() == Deployed(tokenIndex)
    {
      admin := Option.None;
      registry := Option.None;
      claimed := {};
      eligible := [];
      tokenUtilities := tokenIndex;
      issued := [];
    }

    method SetupConfig(newAdmin: Identity) returns (r: Identity)
      modifies this
      ensures r == newAdmin
      ensures Snapshot() == SetupConfigStep(old(Snapshot()), newAdmin)
    {
      admin := Some(newAdmin);
      registry := Some([]);
      r := newAdmin;
    }

    method CreateUtility(u: Utility, sender: Identity)
      modifies this
      ensures Snapshot() == CreateUtilityStep(old(Snapshot()), u, sender)
    {
      var stored := u.(provider := sender);
      var utilities: seq<Utility> := [];
      if registry.Some? {
        utilities := registry.value;
      }
      utilities := utilities + [stored];
      registry := Some(utilities);
    }

    method ClaimReward(id: U64, user: Identity, sender: Identity) returns (r: Outcome<()>)
      modifies this
      ensures Reply(r, Snapshot()) == ClaimRewardStep(old(Snapshot()), id, user, sender)
    {
      if admin.None? {
        return Abort;
      }
      if sender != admin.value {
        return Fail(NotAuthorized);
      }
      if registry.None? {
        return Abort;
      }
      var utilities := registry.value;
      var slot := Slot(id);
      if slot >= |utilities| {
        return Abort;
      }
      var utility := utilities[slot];
      if utility.reward.totalAmount < utility.reward.amountPerWin {
        return Fail(AllRewardsClaimed);
      }
      utility := utility.(reward := utility.reward.(totalAmount := utility.reward.totalAmount - utility.reward.amountPerWin));
      if utility.selection == Selection.Raffle && !utility.raffle.ended {
        return Fail(RaffleNotEnded);
      }
      var key := ClaimKey(id, user);
      if key in claimed {
        return Fail(AlreadyClaimed);
      }
      // The source writes the claim mark here; a panic below discards it with the rest.
      var pendingClaimed := claimed + {key};
      if |utility.reward.tokenAddresses| == 0 {
        return Abort;
      }
      var token := utility.reward.tokenAddresses[0];
      var issuance: Issuance;
      match utility.reward.receipt {
        case MintToken =>
          issuance := Mint(token, user, utility.reward.amountPerWin);
        case External =>
          issuance := Transfer(token, user, utility.reward.amountPerWin);
        case None =>
          return Fail(InvalidReceiptType);
        case HTSToken =>
          return Fail(InvalidReceiptType);
      }
      registry := Some(utilities[slot := utility]);
      claimed := pendingClaimed;
      issued := issued + [issuance];
      r := Ok(());
    }

    method MarkEligible(id: U64, user: Identity, sender: Identity) returns (r: Outcome<()>)
      modifies this
      ensures Reply(r, Snapshot()) == MarkEligibleStep(old(Snapshot()), id, user, sender)
    {
      if admin.None? {
        return Abort;
      }
      if sender != admin.value {
        return Fail(NotAuthorized);
      }
      var entry := map[user := id];
      eligible := eligible + [entry];
      r := Ok(());
    }

    /** `get_token_utility`: scans the per-asset list and returns from the first map holding the asset. */
    method GetTokenUtility(asset: Identity) returns (r: Outcome<Utility>)
      ensures r == TokenUtilityOf(Snapshot(), asset)
    {
      if tokenUtilities.None? {
        return Abort;
      }
      var ms := tokenUtilities.value;
      var i := 0;
      while i < |ms|
        invariant 0 <= i <= |ms|
        invariant forall j :: 0 <= j < i ==> asset !in ms[j]
      {
        if asset in ms[i] {
          return Ok(ms[i][asset]);
        }
        i := i + 1;
      }
      r := Fail(UtilityNotFound);
    }

    /** `check_utility`: starts from true and clears the answer for each failed test. */
    method CheckUtility(asset: Identity, id: U64, now: U64) returns (r: Outcome<bool>)
      ensures r == CheckOutcome(Snapshot(), asset, id, now)
    {
      if registry.None? {
        return Ok(false);
      }
      var utilities := registry.value;
      var slot := Slot(id);
      if slot >= |utilities| {
        return Fail(UtilityNotFound);
      }
      var u := utilities[slot];
      var found := GetTokenUtility(asset);
      if !found.Ok? {
        return if found.Abort? then Abort else Fail(found.error);
      }
      var instance := found.value;
      var response := true;
      if u.expiryType == ExpiryType.None {
        if instance.expiry < now {
          response := false;
        }
      }
      if u.usageType != Limited {
        if instance.usage == 0 {
          response := false;
        }
      }
      r := Ok(response);
    }
  }
}
