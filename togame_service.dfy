/** TOGameService: the client-side round coordinator of the "31 Game". It
    checks local preconditions against freshly read contract state and then
    sends at most one write transaction to the game contract; it also turns the
    contract's round-info tuple into the keyed map the presentation layer reads. */
module TOGameService {
  import opened Wrappers
  import opened RoundInfoDto

  /** The address the contract's public `winners` mapping answers for a round
      that has no winner recorded. */
  const ZeroAddress: string := "0x0000000000000000000000000000000000000000"

  /** BigInteger.valueOf(base).pow(exp). */
  function Pow(base: nat, exp: nat): nat {
    if exp == 0 then 1 else base * Pow(base, exp - 1)
  }

  /** One full token in its smallest unit: `BigInteger.valueOf(10).pow(18)`.
      It is also the wager band's lower bound, which the wager must exceed. */
  const WeiPerToken: nat := Pow(10, 18)
  const MinWagerExclusive: nat := WeiPerToken

  /** The wager band's upper bound as written, `BigInteger.valueOf(50).pow(18)`
      (fifty to the eighteenth power, not fifty tokens); the wager may equal it. */
  const MaxWagerInclusive: nat := Pow(50, 18)

  /** A player entry of a round, as the contract's getRoundPlayers returns it. */
  datatype Player = Player(playerAddress: string, amount: nat)

  /** A write transaction sent to the game contract, signed by `signer`. */
  datatype WriteCall =
    | SubmitCall(signer: string, round: int, number: int, amountInWei: int)
    | StartNewRoundCall(signer: string)
    | SetWinnerPercentageCall(signer: string, newPercentage: int)

  /** What the service throws before anything is sent: the RuntimeException
      of each guard, and the NullPointerException of a null BigInteger
      argument that is compared or encoded (None stands for null). */
  datatype ServiceError =
    | StaleRound(currentRound: nat, argumentRound: Option<int>)
    | NumberOutOfRange(number: int)
    | AmountOutOfRange(amountInWei: int)
    | RoundNotOver
    | NotOwner
    | NullArgument(parameter: string)

  /** The game contract as the generated binding sees it: what its read
      functions answer, and the log of write transactions sent to it. */
  class TOGameContract {
    var currentRound: nat
    /** getRoundInfo(roundId), whatever the contract answers for that id. */
    var roundInfoOf: nat -> RoundTuple
    /** getRoundPlayers(roundId), in the contract's order. */
    var roundPlayersOf: nat -> seq<Player>
    /** The public `winners` mapping; ids without an entry read as ZeroAddress. */
    var winners: map<nat, string>
    var owner: string
    var winnerPercentage: nat
    var token: string
    var contractBalance: nat
    /** Every write transaction sent so far, oldest first. */
    var sent: seq<WriteCall>

    constructor (currentRound: nat, roundInfoOf: nat -> RoundTuple, roundPlayersOf: nat -> seq<Player>,
                 winners: map<nat, string>, owner: string, winnerPercentage: nat,
                 token: string, contractBalance: nat)
      ensures this.currentRound == currentRound && this.roundInfoOf == roundInfoOf
      ensures this.roundPlayersOf == roundPlayersOf && this.winners == winners
      ensures this.owner == owner && this.winnerPercentage == winnerPercentage
      ensures this.token == token && this.contractBalance == contractBalance
      ensures sent == []
    {
      this.currentRound := currentRound;
      this.roundInfoOf := roundInfoOf;
      this.roundPlayersOf := roundPlayersOf;
      this.winners := winners;
      this.owner := owner;
      this.winnerPercentage := winnerPercentage;
      this.token := token;
      this.contractBalance := contractBalance;
      sent := [];
    }

    /** `.send()` of a write call: the transaction goes out and is logged. */
    method Send(call: WriteCall)
      modifies this`sent
      ensures sent == old(sent) + [call]
    {
      sent := sent + [call];
    }
  }

  // --- Pure decisions of the guards ---

  predicate InWagerBand(amountInWei: int) {
    MinWagerExclusive < amountInWei <= MaxWagerInclusive
  }

  /** What submitNumber decides, given the live current round: the guards run
      round, then number, then amount, and the first that fails decides the
      error; when all pass, the submit call carries the arguments unchanged.
      A null round is not equal to the live round, so it is stale; a null
      number or amount throws when it is compared. */
  function SubmitPlan(live: nat, caller: string, round: Option<int>, number: Option<int>,
                      amountInWei: Option<int>)
    : (r: Result<WriteCall, ServiceError>)
    ensures r.Success? <==>
      && round == Some(live)
      && number.Some? && number.value in {1, 2, 3}
      && amountInWei.Some? && InWagerBand(amountInWei.value)
    ensures r.Success? ==> r.value == SubmitCall(caller, round.value, number.value, amountInWei.value)
    ensures round != Some(live) ==> r == Failure(StaleRound(live, round))
    ensures round == Some(live) && number.None? ==> r == Failure(NullArgument("number"))
    ensures round == Some(live) && number.Some? && !(1 <= number.value <= 3) ==>
      r == Failure(NumberOutOfRange(number.value))
    ensures (round == Some(live) && number.Some? && 1 <= number.value <= 3
             && amountInWei.None?) ==>
      r == Failure(NullArgument("amountInWei"))
    ensures (round == Some(live) && number.Some? && 1 <= number.value <= 3
             && amountInWei.Some? && !InWagerBand(amountInWei.value)) ==>
      r == Failure(AmountOutOfRange(amountInWei.value))
  {
    if round != Some(live) then
      Failure(StaleRound(live, round))
    else if number.None? then
      Failure(NullArgument("number"))
    else if number.value < 1 || number.value > 3 then
      Failure(NumberOutOfRange(number.value))
    else if amountInWei.None? then
      Failure(NullArgument("amountInWei"))
    else if amountInWei.value <= MinWagerExclusive || amountInWei.value > MaxWagerInclusive then
      Failure(AmountOutOfRange(amountInWei.value))
    else
      Success(SubmitCall(caller, round.value, number.value, amountInWei.value))
  }

  /** getRoundInfo's normalisation: tuple components 1 to 4 under the keys
      currentIndex, prizePool, isGameOver and winnerPercentage, values unchanged. */
  function RoundInfoMap(t: RoundTuple): (m: Entries)
    ensures m.Keys == {CurrentIndexKey, PrizePoolKey, GameOverKey, WinnerPercentageKey}
    ensures m[CurrentIndexKey] == IntValue(t.component1) && m[PrizePoolKey] == IntValue(t.component2)
    ensures m[GameOverKey] == BoolValue(t.component3) && m[WinnerPercentageKey] == IntValue(t.component4)
  {
    map[CurrentIndexKey := IntValue(t.component1), PrizePoolKey := IntValue(t.component2),
        GameOverKey := BoolValue(t.component3), WinnerPercentageKey := IntValue(t.component4)]
  }

  /** What startNewRound decides from the current round's info, read through
      the keyed map: it refuses exactly when isGameOver is false. */
  function StartPlan(info: RoundTuple, caller: string): (r: Result<WriteCall, ServiceError>)
    ensures r.Failure? <==> !info.component3
    ensures r.Failure? ==> r.error == RoundNotOver
    ensures r.Success? ==> r.value == StartNewRoundCall(caller)
  {
    var m := RoundInfoMap(info);
    if m[GameOverKey] == BoolValue(false) then Failure(RoundNotOver)
    else Success(StartNewRoundCall(caller))
  }

  /** Java's toLowerCase on the ASCII letters an address is written in. */
  function LowerChar(c: char): char {
    if 'A' <= c <= 'Z' then (c as int + 32) as char else c
  }

  function ToLower(s: string): (r: string)
    ensures |r| == |s|
    ensures forall i :: 0 <= i < |s| ==> r[i] == LowerChar(s[i])
  {
    if s == [] then [] else [LowerChar(s[0])] + ToLower(s[1..])
  }

  /** Two addresses that differ at most in the case of their letters. */
  predicate SameIgnoringCase(a: string, b: string) {
    |a| == |b| && forall i :: 0 <= i < |a| ==> LowerChar(a[i]) == LowerChar(b[i])
  }

  /** Comparing lower-cased copies is comparing letter by letter ignoring case. */
  lemma LowerEqualIff(a: string, b: string)
    ensures ToLower(a) == ToLower(b) <==> SameIgnoringCase(a, b)
  {
  }

  /** What setWinnerPercentage decides from the owner it read: the call is sent
      only when the caller's address equals the owner's ignoring case, and the
      percentage is forwarded without any range check. A null percentage
      passes the owner check and then throws when the binding encodes it. */
  function SetPercentagePlan(caller: string, owner: string, newPercentage: Option<int>)
    : (r: Result<WriteCall, ServiceError>)
    ensures r.Success? <==> SameIgnoringCase(caller, owner) && newPercentage.Some?
    ensures r.Success? ==> r.value == SetWinnerPercentageCall(caller, newPercentage.value)
    ensures !SameIgnoringCase(caller, owner) ==> r == Failure(NotOwner)
    ensures SameIgnoringCase(caller, owner) && newPercentage.None? ==>
      r == Failure(NullArgument("newPercentage"))
  {
    LowerEqualIff(caller, owner);
    if ToLower(caller) != ToLower(owner) then Failure(NotOwner)
    else if newPercentage.None? then Failure(NullArgument("newPercentage"))
    else Success(SetWinnerPercentageCall(caller, newPercentage.value))
  }

  // --- Service operations over the contract ---

  /** currentRound(): a read, nothing is sent. */
  method GetCurrentRound(game: TOGameContract) returns (round: nat)
    ensures round == game.currentRound
  {
    round := game.currentRound;
  }

  /** getRoundInfo(roundId): the contract's tuple for that round as a keyed map. */
  method GetRoundInfo(game: TOGameContract, roundId: nat) returns (info: Entries)
    ensures info == RoundInfoMap(game.roundInfoOf(roundId))
    ensures FromMap(info) == Success(FromTuple(game.roundInfoOf(roundId)))
  {
    var tuple := game.roundInfoOf(roundId);
    info := RoundInfoMap(tuple);
    RoundInfoPathInvariance(tuple);
  }

  /** getRoundPlayers(roundId): the players the contract lists, in its order. */
  method GetRoundPlayers(game: TOGameContract, roundId: nat) returns (players: seq<Player>)
    ensures players == game.roundPlayersOf(roundId)
  {
    players := game.roundPlayersOf(roundId);
  }

  /** winners(roundId): a round without a recorded winner reads as the zero
      address, which is a valid answer and not an error. */
  method GetWinner(game: TOGameContract, roundId: nat) returns (winner: string)
    ensures roundId in game.winners ==> winner == game.winners[roundId]
    ensures roundId !in game.winners ==> winner == ZeroAddress
  {
    winner := if roundId in game.winners then game.winners[roundId] else ZeroAddress;
  }

  /** owner(): the contract owner's address as the contract spells it. */
  method GetOwner(game: TOGameContract) returns (owner: string)
    ensures owner == game.owner
  {
    owner := game.owner;
  }

  /** winnerPercentage(), token() and getContractBalance(): plain reads. */
  method GetWinnerPercentage(game: TOGameContract) returns (percentage: nat)
    ensures percentage == game.winnerPercentage
  {
    percentage := game.winnerPercentage;
  }

  method GetTokenAddress(game: TOGameContract) returns (token: string)
    ensures token == game.token
  {
    token := game.token;
  }

  method GetContractBalance(game: TOGameContract) returns (balance: nat)
    ensures balance == game.contractBalance
  {
    balance := game.contractBalance;
  }

  /** submitNumber: reads the live current round, runs the three guards in
      order, and only when all pass sends one submit signed by the caller. */
  method SubmitNumber(game: TOGameContract, caller: string, round: Option<int>, number: Option<int>,
                      amountInWei: Option<int>)
    returns (r: Result<WriteCall, ServiceError>)
    modifies game`sent
    ensures r == SubmitPlan(game.currentRound, caller, round, number, amountInWei)
    ensures game.sent == old(game.sent) + (if r.Success? then [r.value] else [])
  {
    var live := GetCurrentRound(game);
    if round != Some(live) {
      return Failure(StaleRound(live, round));
    }
    if number.None? {
      return Failure(NullArgument("number"));
    }
    if number.value < 1 || number.value > 3 {
      return Failure(NumberOutOfRange(number.value));
    }
    if amountInWei.None? {
      return Failure(NullArgument("amountInWei"));
    }
    if amountInWei.value <= MinWagerExclusive || amountInWei.value > MaxWagerInclusive {
      return Failure(AmountOutOfRange(amountInWei.value));
    }
    var call := SubmitCall(caller, round.value, number.value, amountInWei.value);
    game.Send(call);
    return Success(call);
  }

  /** startNewRound: reads the info of the round currentRound() names and
      sends startNewRound only when that round's isGameOver is true. */
  method StartNewRound(game: TOGameContract, caller: string) returns (r: Result<WriteCall, ServiceError>)
    modifies game`sent
    ensures r == StartPlan(game.roundInfoOf(game.currentRound), caller)
    ensures game.sent == old(game.sent) + (if r.Success? then [r.value] else [])
  {
    var live := GetCurrentRound(game);
    var info := GetRoundInfo(game, live);
    if info[GameOverKey] == BoolValue(false) {
      return Failure(RoundNotOver);
    }
    var call := StartNewRoundCall(caller);
    game.Send(call);
    return Success(call);
  }

  /** setWinnerPercentage: reads owner() and sends the new percentage,
      unchecked, only when the caller's address matches it ignoring case. */
  method SetWinnerPercentage(game: TOGameContract, caller: string, newPercentage: Option<int>)
    returns (r: Result<WriteCall, ServiceError>)
    modifies game`sent
    ensures r == SetPercentagePlan(caller, game.owner, newPercentage)
    ensures game.sent == old(game.sent) + (if r.Success? then [r.value] else [])
  {
    var owner := GetOwner(game);
    if ToLower(caller) != ToLower(owner) {
      return Failure(NotOwner);
    }
    if newPercentage.None? {
      return Failure(NullArgument("newPercentage"));
    }
    var call := SetWinnerPercentageCall(caller, newPercentage.value);
    game.Send(call);
    return Success(call);
  }

  // --- Properties ---

  /** Both round-info paths agree: fromMap of the map getRoundInfo builds from
      a tuple is fromTuple of that tuple, and never throws. */
  lemma RoundInfoPathInvariance(t: RoundTuple)
    ensures FromMap(RoundInfoMap(t)) == Success(FromTuple(t))
  {
  }

  /** Powers add their exponents: b^(m+n) == b^m * b^n. */
  lemma {:induction false} PowAdd(b: nat, m: nat, n: nat)
    ensures Pow(b, m + n) == Pow(b, m) * Pow(b, n)
  {
    if m > 0 {
      PowAdd(b, m - 1, n);
      assert Pow(b, m + n) == b * Pow(b, m - 1 + n);
    }
  }

  /** The two bounds in decimal: one token is 10^18 units, and the upper bound
      50^18 is 3814697265625 tokens. */
  lemma WagerBoundValues()
    ensures WeiPerToken == 1_000_000_000_000_000_000
    ensures MaxWagerInclusive == 3814697265625 * WeiPerToken
  {
    PowAdd(10, 9, 9); PowAdd(10, 3, 6); PowAdd(10, 3, 3);
    PowAdd(50, 9, 9); PowAdd(50, 3, 6); PowAdd(50, 3, 3);
  }

  /** The band as written, in token units: exactly one token is refused, two
      tokens pass (the message says at least ten), fifty-one tokens pass (the
      message says at most fifty), and the upper bound itself passes. */
  lemma WagerBandAsWritten()
    ensures !InWagerBand(WeiPerToken) && InWagerBand(WeiPerToken + 1)
    ensures InWagerBand(2 * WeiPerToken) && InWagerBand(51 * WeiPerToken)
    ensures InWagerBand(MaxWagerInclusive) && !InWagerBand(MaxWagerInclusive + 1)
  {
    WagerBoundValues();
  }

  /** Whether setWinnerPercentage sends does not depend on the letter case of
      the caller's address. */
  lemma AuthorizationIgnoresCase(caller: string, caller': string, owner: string, p: Option<int>)
    requires SameIgnoringCase(caller, caller')
    ensures SetPercentagePlan(caller, owner, p).Success? == SetPercentagePlan(caller', owner, p).Success?
  {
  }
}
