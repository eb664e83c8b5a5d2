/** The canonical four-field round record (RoundInfoDTO) and its two static
    factories: one from the keyed map the service builds, one from the
    4-tuple the contract binding returns. */
module RoundInfoDto {
  import opened Wrappers

  /** The contract's getRoundInfo answer: (currentIndex, prizePool, isGameOver,
      winnerPercentage), decoded from uint256/bool, so the numbers are never negative. */
  datatype RoundTuple = RoundTuple(component1: nat, component2: nat, component3: bool, component4: nat)

  /** A value stored in a Java Map<String, Object> of round info. */
  datatype Value = IntValue(n: int) | BoolValue(b: bool)

  type Entries = map<string, Value>

  const CurrentIndexKey: string := "currentIndex"
  const PrizePoolKey: string := "prizePool"
  const GameOverKey: string := "isGameOver"
  const WinnerPercentageKey: string := "winnerPercentage"

  /** The DTO: the three BigInteger fields are nullable references (None is
      null), isGameOver is a primitive boolean. */
  datatype RoundInfo = RoundInfo(
    currentIndex: Option<int>,
    prizePool: Option<int>,
    isGameOver: bool,
    winnerPercentage: Option<int>)

  /** What fromMap throws: a value of the wrong class under a key
      (ClassCastException), or null unboxed into the boolean field
      (NullPointerException). */
  datatype MapError = ClassCast(key: string) | NullUnboxing(key: string)

  /** A key whose value `(BigInteger) map.get(key)` can take: absent, or an integer. */
  predicate IntTyped(m: Entries, key: string) {
    key !in m || m[key].IntValue?
  }

  /** The nullable BigInteger read under a key, for a key that is IntTyped. */
  function IntAt(m: Entries, key: string): Option<int> {
    if key in m && m[key].IntValue? then Some(m[key].n) else None
  }

  /** `(BigInteger) map.get(key)`: a missing key yields null, a Boolean throws. */
  function CastInt(m: Entries, key: string): Result<Option<int>, MapError> {
    if key !in m then Success(None)
    else match m[key]
      case IntValue(n) => Success(Some(n))
      case BoolValue(_) => Failure(ClassCast(key))
  }

  /** `(Boolean) map.get(key)` unboxed into a boolean parameter. */
  function CastBool(m: Entries, key: string): Result<bool, MapError> {
    if key !in m then Failure(NullUnboxing(key))
    else match m[key]
      case BoolValue(b) => Success(b)
      case IntValue(_) => Failure(ClassCast(key))
  }

  /** fromMap: each field from the key of the same name; the constructor's
      arguments are evaluated left to right, so the first bad entry decides
      what is thrown. */
  function FromMap(m: Entries): (r: Result<RoundInfo, MapError>)
    ensures r.Success? <==>
      && IntTyped(m, CurrentIndexKey) && IntTyped(m, PrizePoolKey)
      && GameOverKey in m && m[GameOverKey].BoolValue?
      && IntTyped(m, WinnerPercentageKey)
    ensures r.Success? ==>
      && r.value.currentIndex == IntAt(m, CurrentIndexKey)
      && r.value.prizePool == IntAt(m, PrizePoolKey)
      && r.value.isGameOver == m[GameOverKey].b
      && r.value.winnerPercentage == IntAt(m, WinnerPercentageKey)
    ensures !IntTyped(m, CurrentIndexKey) ==> r == Failure(ClassCast(CurrentIndexKey))
    ensures IntTyped(m, CurrentIndexKey) && !IntTyped(m, PrizePoolKey) ==>
      r == Failure(ClassCast(PrizePoolKey))
    ensures IntTyped(m, CurrentIndexKey) && IntTyped(m, PrizePoolKey) && GameOverKey !in m ==>
      r == Failure(NullUnboxing(GameOverKey))
    ensures (IntTyped(m, CurrentIndexKey) && IntTyped(m, PrizePoolKey)
             && GameOverKey in m && m[GameOverKey].IntValue?) ==>
      r == Failure(ClassCast(GameOverKey))
    ensures (IntTyped(m, CurrentIndexKey) && IntTyped(m, PrizePoolKey)
             && GameOverKey in m && m[GameOverKey].BoolValue? && !IntTyped(m, WinnerPercentageKey)) ==>
      r == Failure(ClassCast(WinnerPercentageKey))
    ensures r.Failure? && r.error.NullUnboxing? ==> r.error.key == GameOverKey
  {
    var currentIndex :- CastInt(m, CurrentIndexKey);
    var prizePool :- CastInt(m, PrizePoolKey);
    var isGameOver :- CastBool(m, GameOverKey);
    var winnerPercentage :- CastInt(m, WinnerPercentageKey);
    Success(RoundInfo(currentIndex, prizePool, isGameOver, winnerPercentage))
  }

  /** fromTuple: components 1 to 4 go to currentIndex, prizePool, isGameOver
      and winnerPercentage; the numeric fields are never null. */
  function FromTuple(t: RoundTuple): (r: RoundInfo)
    ensures r.currentIndex == Some(t.component1) && r.prizePool == Some(t.component2)
    ensures r.isGameOver == t.component3 && r.winnerPercentage == Some(t.component4)
  {
    RoundInfo(Some(t.component1), Some(t.component2), t.component3, Some(t.component4))
  }

  /** fromMap reads only its four keys: any other entry leaves the outcome as it was. */
  lemma FromMapIgnoresOtherKeys(m: Entries, key: string, v: Value)
    requires key != CurrentIndexKey && key != PrizePoolKey
    requires key != GameOverKey && key != WinnerPercentageKey
    ensures FromMap(m[key := v]) == FromMap(m)
  {
  }

  /** Changing the entry under one key changes at most the field of that name. */
  lemma FromMapFieldLocality(m: Entries, key: string, v: Value)
    requires FromMap(m).Success? && FromMap(m[key := v]).Success?
    ensures key != CurrentIndexKey ==>
      FromMap(m[key := v]).value.currentIndex == FromMap(m).value.currentIndex
    ensures key != PrizePoolKey ==>
      FromMap(m[key := v]).value.prizePool == FromMap(m).value.prizePool
    ensures key != GameOverKey ==>
      FromMap(m[key := v]).value.isGameOver == FromMap(m).value.isGameOver
    ensures key != WinnerPercentageKey ==>
      FromMap(m[key := v]).value.winnerPercentage == FromMap(m).value.winnerPercentage
  {
  }

  /** Changing one tuple component changes only the matching field. */
  lemma FromTupleFieldLocality(t: RoundTuple, x: nat, b: bool)
    ensures FromTuple(t.(component1 := x)) == FromTuple(t).(currentIndex := Some(x))
    ensures FromTuple(t.(component2 := x)) == FromTuple(t).(prizePool := Some(x))
    ensures FromTuple(t.(component3 := b)) == FromTuple(t).(isGameOver := b)
    ensures FromTuple(t.(component4 := x)) == FromTuple(t).(winnerPercentage := Some(x))
  {
  }
}
