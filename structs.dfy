/**
 * The contract's data types: the `#[repr(u32)]` enums with their wire codes,
 * the `Utility`, `Reward` and `Raffle` records, and the error enum.
 *
 * Every time, count and amount in the source is a `u64`; the subset type `U64`
 * carries that bound, so any value built from these records is in range.
 * Records are Dafny datatypes and therefore compare structurally over all
 * their fields, as the source's derived `PartialEq`/`Eq` do.
 */
module Structs {
  import opened Wrappers

  const U64_LIMIT: int := 0x1_0000_0000_0000_0000
  const U32_LIMIT: int := 0x1_0000_0000

  type U64 = x: int | 0 <= x < U64_LIMIT

  /** An account or contract identity; the admin `String` and the `Address` values are both this. */
  type Identity = string

  datatype ExpiryType = None | TimeBased | DateBased

  datatype UsageType = Unlimited | Limited

  datatype Selection = All | Raffle

  datatype Receipt = None | MintToken | External | HTSToken

  datatype Raffle = Raffle(startTime: U64, ended: bool)

  datatype Reward = Reward(
    receipt: Receipt,
    tokenAddresses: seq<Identity>,
    totalAmount: U64,
    amountPerWin: U64,
    noOfWinners: U64)

  datatype Utility = Utility(
    provider: Identity,
    expiry: U64,
    usage: U64,
    offerExpiry: U64,
    partner: Identity,
    utilityUri: string,
    expiryType: ExpiryType,
    usageType: UsageType,
    raffle: Raffle,
    selection: Selection,
    reward: Reward)

  datatype UtilityError =
    | InvalidTime
    | InsufficientBalance
    | InvalidExpiry
    | NotAuthorized
    | RaffleExpired
    | InvalidRaffleSelection
    | RaffleAlreadyEnded
    | RaffleNotEnded
    | AllRewardsClaimed
    | AlreadyClaimed
    | InvalidReceiptType
    | UtilityNotFound
    | UtilityExpired
    | UsageExceeded

  // Wire codes (the `= n` discriminants) and their decoders.

  function ExpiryTypeCode(t: ExpiryType): (c: nat)
    ensures c < 3
  {
    match t
    case None => 0
    case TimeBased => 1
    case DateBased => 2
  }

  function ExpiryTypeFromCode(c: nat): (r: Option<ExpiryType>)
    ensures r.Some? <==> c < 3
  {
    if c == 0 then Some(ExpiryType.None)
    else if c == 1 then Some(TimeBased)
    else if c == 2 then Some(DateBased)
    else Option.None
  }

  function UsageTypeCode(t: UsageType): (c: nat)
    ensures c < 2
  {
    match t
    case Unlimited => 0
    case Limited => 1
  }

  function UsageTypeFromCode(c: nat): (r: Option<UsageType>)
    ensures r.Some? <==> c < 2
  {
    if c == 0 then Some(Unlimited)
    else if c == 1 then Some(Limited)
    else Option.None
  }

  function SelectionCode(s: Selection): (c: nat)
    ensures c < 2
  {
    match s
    case All => 0
    case Raffle => 1
  }

  function SelectionFromCode(c: nat): (r: Option<Selection>)
    ensures r.Some? <==> c < 2
  {
    if c == 0 then Some(All)
    else if c == 1 then Some(Selection.Raffle)
    else Option.None
  }

  function ReceiptCode(r: Receipt): (c: nat)
    ensures c < 4
  {
    match r
    case None => 0
    case MintToken => 1
    case External => 2
    case HTSToken => 3
  }

  function ReceiptFromCode(c: nat): (r: Option<Receipt>)
    ensures r.Some? <==> c < 4
  {
    if c == 0 then Some(Receipt.None)
    else if c == 1 then Some(MintToken)
    else if c == 2 then Some(External)
    else if c == 3 then Some(HTSToken)
    else Option.None
  }

  function ErrorCode(e: UtilityError): (c: nat)
    ensures 1 <= c <= 14
  {
    match e
    case InvalidTime => 1
    case InsufficientBalance => 2
    case InvalidExpiry => 3
    case NotAuthorized => 4
    case RaffleExpired => 5
    case InvalidRaffleSelection => 6
    case RaffleAlreadyEnded => 7
    case RaffleNotEnded => 8
    case AllRewardsClaimed => 9
    case AlreadyClaimed => 10
    case InvalidReceiptType => 11
    case UtilityNotFound => 12
    case UtilityExpired => 13
    case UsageExceeded => 14
  }

  function ErrorFromCode(c: nat): (r: Option<UtilityError>)
    ensures r.Some? <==> 1 <= c <= 14
  {
    if c == 1 then Some(InvalidTime)
    else if c == 2 then Some(InsufficientBalance)
    else if c == 3 then Some(InvalidExpiry)
    else if c == 4 then Some(NotAuthorized)
    else if c == 5 then Some(RaffleExpired)
    else if c == 6 then Some(InvalidRaffleSelection)
    else if c == 7 then Some(RaffleAlreadyEnded)
    else if c == 8 then Some(RaffleNotEnded)
    else if c == 9 then Some(AllRewardsClaimed)
    else if c == 10 then Some(AlreadyClaimed)
    else if c == 11 then Some(InvalidReceiptType)
    else if c == 12 then Some(UtilityNotFound)
    else if c == 13 then Some(UtilityExpired)
    else if c == 14 then Some(UsageExceeded)
    else Option.None
  }

  /** Each enum's code decodes back to the variant, and each valid code comes from exactly one variant. */
  lemma ExpiryTypeCodeRoundTrip(t: ExpiryType, c: nat)
    ensures ExpiryTypeFromCode(ExpiryTypeCode(t)) == Some(t)
    ensures ExpiryTypeFromCode(c).Some? ==> ExpiryTypeCode(ExpiryTypeFromCode(c).value) == c
  {
  }

  lemma UsageTypeCodeRoundTrip(t: UsageType, c: nat)
    ensures UsageTypeFromCode(UsageTypeCode(t)) == Some(t)
    ensures UsageTypeFromCode(c).Some? ==> UsageTypeCode(UsageTypeFromCode(c).value) == c
  {
  }

  lemma SelectionCodeRoundTrip(s: Selection, c: nat)
    ensures SelectionFromCode(SelectionCode(s)) == Some(s)
    ensures SelectionFromCode(c).Some? ==> SelectionCode(SelectionFromCode(c).value) == c
  {
  }

  lemma ReceiptCodeRoundTrip(r: Receipt, c: nat)
    ensures ReceiptFromCode(ReceiptCode(r)) == Some(r)
    ensures ReceiptFromCode(c).Some? ==> ReceiptCode(ReceiptFromCode(c).value) == c
  {
  }

  /** The fourteen error codes are pairwise distinct: one code per failure kind. */
  lemma ErrorCodeInjective(a: UtilityError, b: UtilityError)
    ensures ErrorCode(a) == ErrorCode(b) ==> a == b
    ensures ErrorFromCode(ErrorCode(a)) == Some(a)
  {
  }
}
