/** Values shared by every part of the pipeline model: optional values, Python
    exceptions, the outcome of a call that may raise, JSON values and the
    insertion-ordered dictionaries the pipeline keeps per symbol. */
module Common {

  datatype Option<T> = None | Some(value: T)

  /** The exception classes the pipeline's code distinguishes. */
  datatype ExcClass =
    | APIError                 // anthropic.APIError and its subclasses
    | PlaywrightTimeout
    | RuntimeError
    | EnvironmentError
    | KeyError
    | AttributeError
    | SMTPAuthenticationError
    | SMTPError
    | OSError
    | TypeError
    | KeyboardInterrupt        // a BaseException, not an Exception
    | OtherError

  /** A raised exception: its class and its message. */
  datatype Exc = Exc(cls: ExcClass, message: string)

  /** `except Exception` catches every class except KeyboardInterrupt. */
  predicate IsException(c: ExcClass) {
    c != KeyboardInterrupt
  }

  /** The classes named by the tuple `(Exception,)`. */
  const ExceptionClasses: set<ExcClass> :=
    {APIError, PlaywrightTimeout, RuntimeError, EnvironmentError, KeyError,
     AttributeError, SMTPAuthenticationError, SMTPError, OSError, TypeError, OtherError}

  /** What one call of a Python callable does: return a value, or raise. */
  datatype Attempt<T> = Returned(value: T) | Raised(error: Exc)

  /** The call raised something `except Exception` does not catch. */
  predicate Interrupts<T>(a: Attempt<T>) {
    a.Raised? && !IsException(a.error.cls)
  }

  /** The first task, in task order, whose outcome interrupts (see
      `FirstInterruptIsFirst`). */
  function FirstInterrupt<T>(outcomes: seq<Attempt<T>>): (r: Option<nat>)
    ensures r.Some? ==> r.value < |outcomes| && Interrupts(outcomes[r.value])
  {
    if |outcomes| == 0 then None
    else if Interrupts(outcomes[0]) then Some(0)
    else match FirstInterrupt(outcomes[1..])
      case Some(i) => Some(i + 1)
      case None => None
  }

  /** `FirstInterrupt` finds nothing exactly when no task interrupts, and no
      task before the one it finds interrupts. */
  lemma {:induction false} FirstInterruptIsFirst<T>(outcomes: seq<Attempt<T>>)
    ensures FirstInterrupt(outcomes).None? <==> forall i :: 0 <= i < |outcomes| ==> !Interrupts(outcomes[i])
    ensures FirstInterrupt(outcomes).Some? ==>
      forall k :: 0 <= k < FirstInterrupt(outcomes).value ==> !Interrupts(outcomes[k])
  {
    if |outcomes| > 0 && !Interrupts(outcomes[0]) {
      var rest := outcomes[1..];
      FirstInterruptIsFirst(rest);
      assert forall i :: 1 <= i < |outcomes| ==> outcomes[i] == rest[i - 1];
    }
  }

  /** `asyncio.gather(*tasks, return_exceptions=True)` over tasks with these
      outcomes. An Exception becomes a value of the returned list; a
      KeyboardInterrupt is re-raised by its task and ends the gather, which
      then returns nothing. */
  function GatherOutcome<T>(outcomes: seq<Attempt<T>>): (r: Attempt<seq<Attempt<T>>>)
    ensures r.Returned? <==> forall i :: 0 <= i < |outcomes| ==> !Interrupts(outcomes[i])
    ensures r.Returned? ==> r.value == outcomes
    ensures r.Raised? ==> exists i :: (0 <= i < |outcomes| && outcomes[i] == Raised(r.error) && Interrupts(outcomes[i])
      && forall k :: 0 <= k < i ==> !Interrupts(outcomes[k]))
  {
    FirstInterruptIsFirst(outcomes);
    match FirstInterrupt(outcomes)
    case Some(i) => Raised(outcomes[i].error)
    case None => Returned(outcomes)
  }

  /** A task that does not interrupt keeps a gather without interrupts going. */
  lemma {:induction false} NoInterruptAppend<T>(prev: seq<Attempt<T>>, next: seq<Attempt<T>>)
    requires FirstInterrupt(prev) == None
    requires |next| == |prev| + 1 && next[..|prev|] == prev && !Interrupts(next[|prev|])
    ensures FirstInterrupt(next) == None
    decreases |prev|
  {
    if |prev| > 0 {
      assert next[0] == prev[0];
      assert next[1..][..|prev| - 1] == prev[1..];
      NoInterruptAppend(prev[1..], next[1..]);
    }
  }

  /** Once a prefix of the tasks holds an interrupt, the later tasks do not
      change what the gather raises. */
  lemma InterruptInPrefix<T>(outcomes: seq<Attempt<T>>, n: nat)
    requires n <= |outcomes| && FirstInterrupt(outcomes[..n]).Some?
    ensures GatherOutcome(outcomes) == GatherOutcome(outcomes[..n])
  {
    FirstInterruptIsFirst(outcomes[..n]);
    FirstInterruptIsFirst(outcomes);
    var i := FirstInterrupt(outcomes[..n]).value;
    assert outcomes[..n][i] == outcomes[i];
    forall k | 0 <= k < i ensures !Interrupts(outcomes[k]) {
      assert outcomes[..n][k] == outcomes[k];
    }
    var j := FirstInterrupt(outcomes).value;
    assert j == i;
  }

  /** A JSON value as `json.loads` produces it. */
  datatype Json =
    | JNull
    | JBool(b: bool)
    | JNum(n: real)
    | JStr(s: string)
    | JArray(items: seq<Json>)
    | JObject(fields: map<string, Json>)

  /** The value of an optional field, or its default when absent. */
  function OrElse<T>(o: Option<T>, default: T): (v: T)
    ensures o.Some? ==> v == o.value
    ensures o.None? ==> v == default
  {
    if o.Some? then o.value else default
  }

  /** The four chart variants, in the order every part of the pipeline lists them. */
  const Variants: seq<string> := ["daily", "weekly", "pnf_daily", "pnf_weekly"]

  /** A symbol's chart files: the dict from variant name to screenshot path that
      `capture` returns. A path is modelled by its file name. */
  type Artifacts = map<string, string>

  /** `f"{symbol}_{variant}.png"`: the file a chart variant is saved to, and
      the name it is attached under. */
  function ChartFileName(symbol: string, variant: string): string {
    symbol + "_" + variant + ".png"
  }

  /** `d.get(key, default)` on a dict. */
  function Get<V>(d: map<string, V>, key: string, default: V): (v: V)
    ensures key in d ==> v == d[key]
    ensures key !in d ==> v == default
  {
    if key in d then d[key] else default
  }

  // ---------------------------------------------------------------------------
  // Insertion-ordered dictionaries (Python's dict keeps insertion order)
  // ---------------------------------------------------------------------------

  type Dict<V> = seq<(string, V)>

  function Keys<V>(d: Dict<V>): seq<string> {
    seq(|d|, i requires 0 <= i < |d| => d[i].0)
  }

  /** No key occurs twice, as in every Python dict. */
  predicate UniqueKeys<V>(d: Dict<V>) {
    forall i, j :: 0 <= i < j < |d| ==> d[i].0 != d[j].0
  }

  function IndexOfKey<V>(d: Dict<V>, k: string): (r: Option<nat>)
    ensures r.Some? ==> r.value < |d| && d[r.value].0 == k
    ensures r.None? ==> forall i :: 0 <= i < |d| ==> d[i].0 != k
  {
    if |d| == 0 then None
    else if d[|d| - 1].0 == k then Some(|d| - 1)
    else IndexOfKey(d[..|d| - 1], k)
  }

  predicate HasKey<V>(d: Dict<V>, k: string) {
    exists i :: 0 <= i < |d| && d[i].0 == k
  }

  function Lookup<V>(d: Dict<V>, k: string): (r: Option<V>)
    requires UniqueKeys(d)
    ensures r.Some? <==> HasKey(d, k)
    ensures forall i :: 0 <= i < |d| && d[i].0 == k ==> r == Some(d[i].1)
  {
    match IndexOfKey(d, k)
    case Some(i) => Some(d[i].1)
    case None => None
  }

  /** `d[k] = v`: an existing key keeps its position and takes the new value,
      a new key goes at the end. */
  function Put<V>(d: Dict<V>, k: string, v: V): (r: Dict<V>)
    requires UniqueKeys(d)
    ensures UniqueKeys(r)
    ensures HasKey(d, k) ==> |r| == |d| && forall i :: 0 <= i < |d| ==> r[i] == (if d[i].0 == k then (k, v) else d[i])
    ensures !HasKey(d, k) ==> r == d + [(k, v)]
    ensures forall j :: HasKey(r, j) <==> HasKey(d, j) || j == k
    ensures Lookup(r, k) == Some(v)
    ensures forall j :: j != k ==> Lookup(r, j) == Lookup(d, j)
  {
    match IndexOfKey(d, k)
    case Some(i) =>
      var r := d[i := (k, v)];
      assert forall j :: HasKey(r, j) <==> HasKey(d, j) by {
        forall j ensures HasKey(r, j) <==> HasKey(d, j) {
          if HasKey(d, j) {
            var a :| 0 <= a < |d| && d[a].0 == j;
            assert r[a].0 == j;
          }
          if HasKey(r, j) {
            var a :| 0 <= a < |r| && r[a].0 == j;
            assert d[a].0 == j;
          }
        }
      }
      r
    case None =>
      var r := d + [(k, v)];
      assert r[|d|].0 == k;
      assert forall j :: HasKey(r, j) <==> HasKey(d, j) || j == k by {
        forall j ensures HasKey(r, j) <==> HasKey(d, j) || j == k {
          if HasKey(d, j) {
            var a :| 0 <= a < |d| && d[a].0 == j;
            assert r[a].0 == j;
          }
          if HasKey(r, j) && j != k {
            var a :| 0 <= a < |r| && r[a].0 == j;
            assert a < |d| && d[a].0 == j;
          }
        }
      }
      r
  }

  // ---------------------------------------------------------------------------
  // List comprehensions
  // ---------------------------------------------------------------------------

  /** `[f(x) for x in xs]`, built from the back as a loop appends. */
  function MapSeq<A, B>(xs: seq<A>, f: A -> B): (ys: seq<B>)
    ensures |ys| == |xs|
  {
    if |xs| == 0 then [] else MapSeq(xs[..|xs| - 1], f) + [f(xs[|xs| - 1])]
  }

  /** Appending one more element appends its image. */
  lemma MapSeqStep<A, B>(xs: seq<A>, f: A -> B, i: nat)
    requires i < |xs|
    ensures MapSeq(xs[..i + 1], f) == MapSeq(xs[..i], f) + [f(xs[i])]
  {
    assert xs[..i + 1][..i] == xs[..i];
  }

  /** Element `i` of the image is the image of element `i`. */
  lemma {:induction false} MapSeqAt<A, B>(xs: seq<A>, f: A -> B, i: nat)
    requires i < |xs|
    ensures MapSeq(xs, f)[i] == f(xs[i])
  {
    var n := |xs| - 1;
    if i < n {
      MapSeqAt(xs[..n], f, i);
      assert xs[..n][i] == xs[i];
    }
  }
}
