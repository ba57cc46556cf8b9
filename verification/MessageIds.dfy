/** OpenCode message ids (agent/opencode_server.py, `_new_message_id`). */
module MessageIds {

  /** The module's two globals. */
  datatype Clock = Clock(millis: int, counter: nat)

  const NewClock := Clock(0, 0)

  function Tick(c: Clock, millis: int): Clock {
    Clock(millis, if millis != c.millis then 1 else c.counter + 1)
  }

  /** The number before it is masked. */
  function Serial(c: Clock): int { c.millis * 0x1000 + c.counter }

  function Encode(c: Clock): (r: int)
    ensures 0 <= r < 0x1_0000_0000_0000
  {
    Serial(c) % 0x1_0000_0000_0000
  }

  const DIGITS := "0123456789abcdef"

  /** The last `width` hexadecimal digits of a number, padded with zeros. */
  function Hex(n: nat, width: nat): (s: string)
    ensures |s| == width
  {
    if width == 0 then "" else Hex(n / 16, width - 1) + [DIGITS[n % 16]]
  }

  class MessageIdSource {
    var lastMillis: int
    var counter: nat

    ghost function State(): Clock
      reads this
    {
      Clock(lastMillis, counter)
    }

    constructor ()
      ensures State() == NewClock
    {
      lastMillis, counter := 0, 0;
    }

    /** `random` are the fourteen random characters. */
    method NewMessageId(millis: int, random: string) returns (id: string)
      modifies this
      ensures State() == Tick(old(State()), millis)
      ensures id == MessageId(State(), random)
    {
      if millis != lastMillis {
        lastMillis := millis;
        counter := 0;
      }
      counter := counter + 1;
      var encoded := (millis * 0x1000 + counter) % 0x1_0000_0000_0000;
      assert encoded == Encode(State());
      id := "msg_" + Hex(encoded, 12) + random;
    }
  }

  function MessageId(c: Clock, random: string): string { "msg_" + Hex(Encode(c), 12) + random }

  /** The order in which the server sorts ids: by the first differing character. */
  ghost predicate LexLess(a: string, b: string) {
    exists k :: 0 <= k < |a| && k < |b| && a[..k] == b[..k] && a[k] < b[k]
  }

  lemma DigitsIncrease(i: nat, j: nat)
    requires i < 16 && j < 16
    ensures DIGITS[i] < DIGITS[j] <==> i < j
    ensures DIGITS[i] == DIGITS[j] <==> i == j
  {
  }

  /** Equally long hexadecimal numbers are ordered as the numbers are. */
  lemma {:induction false} HexOrder(m: nat, n: nat, width: nat)
    requires m < n < Power16(width)
    ensures LexLess(Hex(m, width), Hex(n, width))
  {
    var (a, b) := (Hex(m, width), Hex(n, width));
    if m / 16 == n / 16 {
      DigitsIncrease(m % 16, n % 16);
      assert a[..width - 1] == Hex(m / 16, width - 1) == b[..width - 1];
      assert a[width - 1] < b[width - 1];
    } else {
      HexOrder(m / 16, n / 16, width - 1);
      var k :| 0 <= k < width - 1 && Hex(m / 16, width - 1)[..k] == Hex(n / 16, width - 1)[..k] &&
        Hex(m / 16, width - 1)[k] < Hex(n / 16, width - 1)[k];
      assert a[..k] == Hex(m / 16, width - 1)[..k] && b[..k] == Hex(n / 16, width - 1)[..k];
      assert a[k] < b[k];
    }
  }

  function Power16(width: nat): nat { if width == 0 then 1 else 16 * Power16(width - 1) }

  /** Whatever follows them, ids are ordered as their encoded numbers are. */
  lemma IdOrder(c: Clock, d: Clock, r: string, q: string)
    ensures LexLess(MessageId(c, r), MessageId(d, q)) <== Encode(c) < Encode(d)
  {
    if Encode(c) < Encode(d) {
      var (a, b) := (Hex(Encode(c), 12), Hex(Encode(d), 12));
      assert Power16(12) == 0x1_0000_0000_0000 by {
        assert Power16(4) == 0x1_0000;
        assert Power16(8) == 0x1_0000_0000;
      }
      HexOrder(Encode(c), Encode(d), 12);
      var k :| 0 <= k < 12 && a[..k] == b[..k] && a[k] < b[k];
      var (x, y) := (MessageId(c, r), MessageId(d, q));
      assert x[..k + 4] == "msg_" + a[..k] && y[..k + 4] == "msg_" + b[..k];
      assert x[k + 4] == a[k] && y[k + 4] == b[k];
    }
  }

  /** Both numbers are in the same block of 2^48, that is, there is no wrap between them. */
  predicate SameBlock(c: Clock, d: Clock) { Serial(c) / 0x1_0000_0000_0000 == Serial(d) / 0x1_0000_0000_0000 }

  /** One more id: the number increases if and only if the previous millisecond did not use up the
      4096 numbers of every millisecond that has passed since. */
  lemma NextIncreasesIff(c: Clock, millis: int)
    requires millis >= c.millis && SameBlock(c, Tick(c, millis))
    ensures Encode(c) < Encode(Tick(c, millis)) <==> millis == c.millis || c.counter <= (millis - c.millis) * 0x1000
  {
    var d := Tick(c, millis);
    assert Encode(d) - Encode(c) == Serial(d) - Serial(c) by {
      assert Serial(c) == Serial(c) / 0x1_0000_0000_0000 * 0x1_0000_0000_0000 + Encode(c);
      assert Serial(d) == Serial(d) / 0x1_0000_0000_0000 * 0x1_0000_0000_0000 + Encode(d);
    }
  }

  /** The states after each of a list of calls. */
  function After(c: Clock, calls: seq<int>): Clock {
    if calls == [] then c else Tick(After(c, calls[..|calls| - 1]), calls[|calls| - 1])
  }

  ghost predicate Sorted(calls: seq<int>) {
    forall i, j :: 0 <= i < j < |calls| ==> calls[i] <= calls[j]
  }

  /** How many of the last calls fell into the last millisecond. */
  function TrailingCalls(calls: seq<int>): nat {
    if calls == [] then 0
    else if |calls| > 1 && calls[|calls| - 2] == calls[|calls| - 1] then 1 + TrailingCalls(calls[..|calls| - 1])
    else 1
  }

  lemma {:induction false} CounterCounts(calls: seq<int>)
    requires calls != []
    ensures After(NewClock, calls) == Clock(calls[|calls| - 1], TrailingCalls(calls))
  {
    if |calls| > 1 {
      CounterCounts(calls[..|calls| - 1]);
    } else {
      assert calls[..0] == [];
    }
  }

  /** No millisecond sees more calls than it has numbers. */
  ghost predicate WithinRate(calls: seq<int>) {
    forall n :: 0 <= n <= |calls| ==> TrailingCalls(calls[..n]) < 0x1000
  }

  /** All calls within one period of 2^36 milliseconds. */
  ghost predicate WithinBlock(calls: seq<int>) {
    forall i, j :: 0 <= i < |calls| && 0 <= j < |calls| ==> calls[i] / 0x10_0000_0000 == calls[j] / 0x10_0000_0000
  }

  lemma SerialBounds(calls: seq<int>, n: nat)
    requires 0 < n <= |calls| && WithinRate(calls)
    ensures var c := After(NewClock, calls[..n]);
            c.millis == calls[n - 1] && 0 < c.counter < 0x1000 && Serial(c) / 0x1000 == c.millis
            && Serial(c) / 0x1_0000_0000_0000 == calls[n - 1] / 0x10_0000_0000
  {
    CounterCounts(calls[..n]);
  }

  /** Later calls get larger numbers and, whatever the random part, larger ids. */
  lemma {:induction false} IdsIncrease(calls: seq<int>, i: nat, j: nat, r: string, q: string)
    requires Sorted(calls) && WithinRate(calls) && WithinBlock(calls) && 0 < i < j <= |calls|
    ensures Encode(After(NewClock, calls[..i])) < Encode(After(NewClock, calls[..j]))
    ensures LexLess(MessageId(After(NewClock, calls[..i]), r), MessageId(After(NewClock, calls[..j]), q))
  {
    var (c, d) := (After(NewClock, calls[..i]), After(NewClock, calls[..j]));
    SerialBounds(calls, i);
    SerialBounds(calls, j);
    SerialsIncrease(calls, i, j);
    assert Serial(c) == Serial(c) / 0x1_0000_0000_0000 * 0x1_0000_0000_0000 + Encode(c);
    assert Serial(d) == Serial(d) / 0x1_0000_0000_0000 * 0x1_0000_0000_0000 + Encode(d);
    IdOrder(c, d, r, q);
  }

  lemma {:induction false} SerialsIncrease(calls: seq<int>, i: nat, j: nat)
    requires Sorted(calls) && WithinRate(calls) && 0 < i < j <= |calls|
    ensures Serial(After(NewClock, calls[..i])) < Serial(After(NewClock, calls[..j]))
  {
    var c := After(NewClock, calls[..j - 1]);
    assert calls[..j][..j - 1] == calls[..j - 1];
    SerialBounds(calls, j - 1);
    SerialBounds(calls, j);
    if i < j - 1 {
      SerialsIncrease(calls, i, j - 1);
    }
  }

  // Exactly when ids increase.

  lemma LexLessAsymmetric(a: string, b: string)
    requires LexLess(a, b)
    ensures !LexLess(b, a) && a != b
  {
    var k :| 0 <= k < |a| && k < |b| && a[..k] == b[..k] && a[k] < b[k];
    forall j | k < j <= |a| && j <= |b| ensures b[..j] != a[..j] {
      assert a[..j][k] != b[..j][k];
    }
    forall j | 0 <= j < k ensures a[j] == b[j] {
      assert a[..k][j] == b[..k][j];
    }
  }

  /** An id is smaller than another one, whatever their random parts, exactly if its number is smaller. */
  lemma IdOrderIff(c: Clock, d: Clock)
    ensures (forall r, q :: LexLess(MessageId(c, r), MessageId(d, q))) <==> Encode(c) < Encode(d)
  {
    forall r, q | Encode(c) < Encode(d) ensures LexLess(MessageId(c, r), MessageId(d, q)) {
      IdOrder(c, d, r, q);
    }
    if Encode(d) < Encode(c) {
      IdOrder(d, c, "", "");
      LexLessAsymmetric(MessageId(d, ""), MessageId(c, ""));
    } else if Encode(d) == Encode(c) {
      NotLexLess(MessageId(c, ""));
    }
  }

  lemma NotLexLess(a: string)
    ensures !LexLess(a, a)
  {
  }

  /** The state after n calls. */
  function Upto(calls: seq<int>, n: nat): Clock
    requires n <= |calls|
  {
    After(NewClock, calls[..n])
  }

  /** The next call comes before the numbers that were used up have passed. */
  predicate Overruns(c: Clock, millis: int) { millis != c.millis && c.counter > (millis - c.millis) * 0x1000 }

  ghost predicate NoOverrun(calls: seq<int>) {
    forall n :: 0 < n < |calls| ==> !Overruns(Upto(calls, n), calls[n])
  }

  /** The numbers do not wrap in between. */
  ghost predicate OneBlock(calls: seq<int>) {
    forall i, j :: 0 < i < j <= |calls| ==> SameBlock(Upto(calls, i), Upto(calls, j))
  }

  /** The numbers of the calls, in order. */
  function Numbers(calls: seq<int>): seq<int> {
    seq(|calls|, (i: nat) requires i < |calls| => Encode(Upto(calls, i + 1)))
  }

  ghost predicate Increasing(numbers: seq<int>) {
    forall i, j :: 0 <= i < j < |numbers| ==> numbers[i] < numbers[j]
  }

  lemma NextNumber(calls: seq<int>, n: nat)
    requires Sorted(calls) && OneBlock(calls) && 0 < n < |calls|
    ensures Encode(Upto(calls, n)) < Encode(Upto(calls, n + 1)) <==> !Overruns(Upto(calls, n), calls[n])
  {
    assert calls[..n + 1][..n] == calls[..n];
    CounterCounts(calls[..n]);
    assert SameBlock(Upto(calls, n), Upto(calls, n + 1));
    NextIncreasesIff(Upto(calls, n), calls[n]);
  }

  /** Numbers of which each is larger than the one before. */
  lemma {:induction false} AdjacentIncrease(numbers: seq<int>, i: nat, j: nat)
    requires forall n :: 0 < n < |numbers| ==> numbers[n - 1] < numbers[n]
    requires i < j < |numbers|
    ensures numbers[i] < numbers[j]
  {
    if i < j - 1 {
      AdjacentIncrease(numbers, i, j - 1);
    }
  }

  lemma NumbersFollow(calls: seq<int>, n: nat)
    requires Sorted(calls) && OneBlock(calls) && 0 < n < |calls|
    ensures Numbers(calls)[n - 1] < Numbers(calls)[n] <==> !Overruns(Upto(calls, n), calls[n])
  {
    NextNumber(calls, n);
  }

  lemma NoOverrunIncreases(calls: seq<int>)
    requires Sorted(calls) && OneBlock(calls) && NoOverrun(calls)
    ensures Increasing(Numbers(calls))
  {
    var numbers := Numbers(calls);
    forall n | 0 < n < |numbers| ensures numbers[n - 1] < numbers[n] {
      NumbersFollow(calls, n);
    }
    forall i, j | 0 <= i < j < |numbers| ensures numbers[i] < numbers[j] {
      AdjacentIncrease(numbers, i, j);
    }
  }

  /** Over any calls at non-decreasing clock readings, all later numbers, hence all later ids, are larger if
      and only if no call comes before the numbers used up by its predecessors have passed. */
  lemma NumbersIncreaseIff(calls: seq<int>)
    requires Sorted(calls) && OneBlock(calls)
    ensures Increasing(Numbers(calls)) <==> NoOverrun(calls)
  {
    if NoOverrun(calls) {
      NoOverrunIncreases(calls);
    } else {
      var n :| 0 < n < |calls| && Overruns(Upto(calls, n), calls[n]);
      NumbersFollow(calls, n);
    }
  }

  function Repeated(millis: int, n: nat): seq<int> { seq(n, (i: nat) => millis) }

  lemma {:induction false} RepeatedCalls(millis: int, n: nat)
    requires n > 0
    ensures After(NewClock, Repeated(millis, n)) == Clock(millis, n)
  {
    var calls := Repeated(millis, n);
    assert calls[..n - 1] == Repeated(millis, n - 1);
    if n > 1 {
      RepeatedCalls(millis, n - 1);
    }
  }

  /** The rate matters: after 4097 calls in a millisecond, one in the next millisecond repeats a number. */
  lemma OverrunRepeats(millis: int)
    ensures var calls := Repeated(millis, 4097);
            Encode(After(NewClock, calls + [millis + 1])) == Encode(After(NewClock, calls))
  {
    var calls := Repeated(millis, 4097);
    RepeatedCalls(millis, 4097);
    assert (calls + [millis + 1])[..4097] == calls;
  }
}
