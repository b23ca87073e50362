/*
 * Shared vocabulary of the targetcli and rtsadmin shells: failure-carrying
 * results, Python's str.startswith, the shell's completion convention, the
 * decimal rendering of "%d" and the "N Thing(s)" count summaries.
 */
module Common {

  datatype Option<+T> = None | Some(value: T)

  datatype Result<+T, +E> = Ok(value: T) | Err(error: E)

  /** The result of a command that returns nothing on success. */
  datatype Outcome<+E> = Pass | Fail(error: E)

  /** Python's `s.startswith(prefix)`. */
  predicate StartsWith(s: string, prefix: string) {
    |prefix| <= |s| && s[..|prefix|] == prefix
  }

  /** A list comprehension with an `if` clause: the elements of `s` kept by `keep`, in order. */
  function Filter<T(!new)>(s: seq<T>, keep: T -> bool): (r: seq<T>)
    ensures |r| <= |s|
    ensures forall x :: x in r <==> x in s && keep(x)
  {
    if s == [] then []
    else (if keep(s[0]) then [s[0]] else []) + Filter(s[1..], keep)
  }

  lemma {:induction false} FilterAllKept<T(!new)>(s: seq<T>, keep: T -> bool)
    requires forall x :: x in s ==> keep(x)
    ensures Filter(s, keep) == s
  {
    if s != [] {
      FilterAllKept(s[1..], keep);
    }
  }

  /** A filter keeps the elements it keeps in their original order, with their multiplicities. */
  lemma {:induction false} FilterMultiset<T(!new)>(s: seq<T>, keep: T -> bool, x: T)
    ensures multiset(Filter(s, keep))[x] == if keep(x) then multiset(s)[x] else 0
  {
    if s != [] {
      FilterMultiset(s[1..], keep, x);
      assert s == [s[0]] + s[1..];
    }
  }

  /**
   * The completion convention of every `ui_complete_*` method: a single
   * completion gets a trailing space, any other number is returned as is.
   */
  function Finish(cs: seq<string>): (r: seq<string>)
    ensures |r| == |cs|
    ensures |cs| == 1 ==> r == [cs[0] + " "]
    ensures |cs| != 1 ==> r == cs
  {
    if |cs| == 1 then [cs[0] + " "] else cs
  }

  /** Undoes `Finish`: the completions as they were before the trailing space. */
  function Unfinish(r: seq<string>): seq<string> {
    if |r| == 1 && |r[0]| > 0 && r[0][|r[0]| - 1] == ' ' then [r[0][..|r[0]| - 1]] else r
  }

  lemma FinishRoundTrip(cs: seq<string>)
    ensures Unfinish(Finish(cs)) == cs
  {
    if |cs| == 1 {
      assert (cs[0] + " ")[..|cs[0]|] == cs[0];
    }
  }

  /**
   * `r` is what the completion convention makes of `matches`: the matches
   * themselves, where a single match carries a trailing space.
   */
  predicate CompletesTo(r: seq<string>, matches: seq<string>) {
    Unfinish(r) == matches && (|r| == 1 ==> EndsWith(r[0], " "))
  }

  /** A single completion ends with the trailing space. */
  lemma FinishSingleEndsWithSpace(cs: seq<string>)
    ensures |cs| == 1 ==> EndsWith(Finish(cs)[0], " ")
  {
    if |cs| == 1 {
      var r := Finish(cs)[0];
      assert r[|r| - 1..] == " ";
    }
  }

  /** `CompletesTo` pins the result down completely: it holds of `Finish(matches)` and of nothing else. */
  lemma CompletesToIsFinish(r: seq<string>, matches: seq<string>)
    ensures CompletesTo(r, matches) <==> r == Finish(matches)
  {
    if r == Finish(matches) {
      FinishRoundTrip(matches);
      if |matches| == 1 {
        assert r[0][|r[0]| - 1..] == " ";
      }
    }
    if CompletesTo(r, matches) && |r| == 1 {
      var n := |r[0]|;
      assert r[0][n - 1..] == " ";
      assert r[0] == r[0][..n - 1] + r[0][n - 1..];
    }
  }

  /** `[c for c in cands if c.startswith(text)]` */
  function Matching(cands: seq<string>, text: string): (r: seq<string>)
    ensures forall x :: x in r <==> x in cands && StartsWith(x, text)
    ensures |r| <= |cands|
  {
    Filter(cands, c => StartsWith(c, text))
  }

  /**
   * The candidates that start with `text`, in their order, finished by the
   * trailing-space rule.
   */
  function Completions(cands: seq<string>, text: string): (r: seq<string>)
    ensures CompletesTo(r, Matching(cands, text))
    ensures forall x :: x in Unfinish(r) <==> x in cands && StartsWith(x, text)
    ensures |r| <= |cands|
  {
    var matches := Matching(cands, text);
    CompletesToIsFinish(Finish(matches), matches);
    Finish(matches)
  }

  /** Index of the first element equal to `name` (configshell's lookup of a child by name). */
  function FirstIndex(names: seq<string>, name: string): (r: Option<nat>)
    ensures r.None? <==> name !in names
    ensures r.Some? ==> r.value < |names| && names[r.value] == name
    ensures r.Some? ==> forall j :: 0 <= j < r.value ==> names[j] != name
  {
    if names == [] then None
    else if names[0] == name then Some(0)
    else match FirstIndex(names[1..], name)
      case None => None
      case Some(i) => Some(i + 1)
  }

  /** The sequence without its element at position `i` (remove_child / del_child). */
  function RemoveAt<T(!new)>(s: seq<T>, i: nat): (r: seq<T>)
    requires i < |s|
    ensures |r| == |s| - 1
    ensures forall x :: x in r ==> x in s
  {
    s[..i] + s[i + 1..]
  }

  function DigitChar(d: nat): char
    requires d < 10
  {
    "0123456789"[d]
  }

  /** Python's "%d" on a non-negative integer. */
  function NatToString(n: nat): (s: string)
    ensures |s| >= 1
    ensures forall i :: 0 <= i < |s| ==> '0' <= s[i] <= '9'
  {
    if n < 10 then [DigitChar(n)] else NatToString(n / 10) + [DigitChar(n % 10)]
  }

  /** The value of a string of decimal digits; the partner of `NatToString`. */
  function DecimalValue(s: string): nat
    requires forall i :: 0 <= i < |s| ==> '0' <= s[i] <= '9'
  {
    if s == [] then 0
    else 10 * DecimalValue(s[..|s| - 1]) + ((s[|s| - 1] as int) - ('0' as int))
  }

  lemma {:induction false} DecimalRoundTrip(n: nat)
    ensures DecimalValue(NatToString(n)) == n
  {
    if n >= 10 {
      DecimalRoundTrip(n / 10);
      var s := NatToString(n);
      assert s[..|s| - 1] == NatToString(n / 10);
    }
  }

  /** Distinct numbers print differently, so "%d" labels (lun3, tpgt1, ports) never collide. */
  lemma NatToStringInjective(m: nat, n: nat)
    requires NatToString(m) == NatToString(n)
    ensures m == n
  {
    DecimalRoundTrip(m);
    DecimalRoundTrip(n);
  }

  /**
   * The `summary` of every container node: "%d Thing" when there are zero or
   * one children, "%d Things" only when there are more than one.
   */
  function CountSummary(n: nat, singular: string, plural: string): (r: string)
    ensures StartsWith(r, NatToString(n) + " ")
    ensures r[|NatToString(n)| + 1..] == if n > 1 then plural else singular
  {
    NatToString(n) + " " + (if n > 1 then plural else singular)
  }

  /** Python's `s.endswith(suffix)`. */
  predicate EndsWith(s: string, suffix: string) {
    |suffix| <= |s| && s[|s| - |suffix|..] == suffix
  }

  /**
   * A boolean command parameter: omitted, or typed as `text`, which the
   * shell's parameter evaluation (ui_eval_param with type 'bool') reads as `value`.
   */
  datatype BoolArg = Omitted | Typed(text: string, value: bool)

  /** ui_eval_param(arg, 'bool', default): the typed value, or the default when omitted. */
  function EvalBool(arg: BoolArg, default: bool): (b: bool)
    ensures arg.Omitted? ==> b == default
    ensures arg.Typed? ==> b == arg.value
  {
    match arg
    case Omitted => default
    case Typed(_, v) => v
  }

  /** prm_gen_wwn: generate a WWN serial unless told otherwise. */
  function PrmGenWwn(arg: BoolArg): (b: bool)
    ensures arg.Omitted? ==> b
    ensures arg.Typed? ==> b == arg.value
  {
    EvalBool(arg, true)
  }

  /**
   * prm_buffered, as the targetcli tree writes it: the evaluated parameter,
   * true when omitted. (The fileio help text of the same tree says buffered
   * mode is off by default; the code's default is what is modelled here.)
   */
  function PrmBuffered(arg: BoolArg): (b: bool)
    ensures arg.Omitted? ==> b
    ensures arg.Typed? ==> b == arg.value
  {
    EvalBool(arg, true)
  }

  /**
   * prm_buffered as the legacy and rtsadmin trees write it: the parameter is
   * evaluated but the raw argument is returned, so an omitted parameter gives
   * None and a typed one gives its text, whatever it evaluates to.
   */
  function PrmBufferedAsWritten(arg: BoolArg): (raw: Option<string>)
    ensures arg.Omitted? <==> raw.None?
    ensures arg.Typed? ==> raw.value == arg.text
  {
    match arg
    case Omitted => None
    case Typed(text, _) => Some(text)
  }

  /** Python truthiness of None or a string. */
  predicate Truthy(raw: Option<string>) {
    raw.Some? && raw.value != ""
  }

  /**
   * prm_buffered of the legacy and rtsadmin trees as intended: the evaluated
   * parameter, off when omitted, as their fileio help text documents.
   */
  function PrmBufferedIntended(arg: BoolArg): (b: bool)
    ensures arg.Omitted? ==> !b
    ensures arg.Typed? ==> b == arg.value
  {
    EvalBool(arg, false)
  }

  /**
   * What the library receives as written agrees with the intended flag when
   * the parameter is omitted (both off), and disagrees exactly when a typed
   * text's truthiness is not its value: "false" turns buffered mode on.
   */
  lemma BufferedAsWrittenDisagrees(arg: BoolArg)
    ensures Truthy(PrmBufferedAsWritten(arg)) != PrmBufferedIntended(arg) <==>
            arg.Typed? && (arg.text != "") != arg.value
    ensures arg == Omitted ==> !Truthy(PrmBufferedAsWritten(arg)) && !PrmBufferedIntended(arg)
    ensures arg == Typed("false", false) ==> Truthy(PrmBufferedAsWritten(arg)) && !PrmBufferedIntended(arg)
  {
  }

  /**
   * The fileio rule of all three trees: either a size and a path that is not a
   * device, or no size and a device path.
   */
  predicate FileioArgsValid(size: Option<string>, isDev: bool) {
    (size.None? && isDev) || (size.Some? && !isDev)
  }

  lemma FileioSizeXorDevice(size: Option<string>, isDev: bool)
    ensures FileioArgsValid(size, isDev) <==> (size.Some? != isDev)
  {
  }

  /** Python's `", ".join(parts)`. */
  function Join(parts: seq<string>, sep: string): (r: string)
    ensures parts == [] ==> r == ""
    ensures |parts| == 1 ==> r == parts[0]
    ensures |parts| == 2 ==> r == parts[0] + sep + parts[1]
  {
    if parts == [] then ""
    else if |parts| == 1 then parts[0]
    else parts[0] + sep + Join(parts[1..], sep)
  }

  /** A join begins with its first part. */
  lemma {:induction false} JoinStartsWithFirst(parts: seq<string>, sep: string)
    requires parts != []
    ensures StartsWith(Join(parts, sep), parts[0])
  {
    if |parts| > 1 {
      var r := Join(parts, sep);
      assert r == parts[0] + (sep + Join(parts[1..], sep));
      assert r[..|parts[0]|] == parts[0];
    }
  }

  /** Appending a part to a join: what building the list with `append` and joining it gives. */
  lemma {:induction false} JoinAppend(parts: seq<string>, sep: string, p: string)
    requires parts != []
    ensures Join(parts + [p], sep) == Join(parts, sep) + sep + p
  {
    if |parts| > 1 {
      assert (parts + [p])[1..] == parts[1..] + [p];
      JoinAppend(parts[1..], sep, p);
    }
  }

  /** A list comprehension without a filter: `[f(x) for x in s]`. */
  function Map<A, B>(s: seq<A>, f: A -> B): (r: seq<B>)
    ensures |r| == |s|
    ensures forall i :: 0 <= i < |s| ==> r[i] == f(s[i])
  {
    if s == [] then [] else [f(s[0])] + Map(s[1..], f)
  }

  lemma MapMembership<A, B>(s: seq<A>, f: A -> B, y: B)
    ensures y in Map(s, f) <==> exists x :: x in s && f(x) == y
  {
    if y in Map(s, f) {
      var i :| 0 <= i < |s| && Map(s, f)[i] == y;
      assert s[i] in s;
    }
    if x :| x in s && f(x) == y {
      var i :| 0 <= i < |s| && s[i] == x;
      assert Map(s, f)[i] == y;
    }
  }

  /**
   * The shape of the simple `ui_complete_*` methods: when the parameter being
   * completed is `expected`, the candidates starting with `text`, finished
   * by the trailing-space rule; for any other parameter, nothing.
   */
  function CompleteParam(param: string, expected: string, cands: seq<string>, text: string): (r: seq<string>)
    ensures param != expected ==> r == []
    ensures param == expected ==> CompletesTo(r, Matching(cands, text))
    ensures param == expected ==> forall x :: x in Unfinish(r) <==> x in cands && StartsWith(x, text)
  {
    if param == expected then Completions(cands, text) else []
  }

  /** Python's `str(i)` on any integer. */
  function IntToString(i: int): (s: string)
    ensures i >= 0 ==> s == NatToString(i)
    ensures i < 0 ==> |s| >= 2 && s[0] == '-' && s[1..] == NatToString(-i)
    ensures i >= 0 <==> '0' <= s[0] <= '9'
  {
    if i < 0 then "-" + NatToString(-i) else NatToString(i)
  }

  lemma IntToStringInjective(i: int, j: int)
    requires IntToString(i) == IntToString(j)
    ensures i == j
  {
    if i >= 0 && j >= 0 {
      NatToStringInjective(i, j);
    } else if i < 0 && j < 0 {
      assert IntToString(i)[1..] == IntToString(j)[1..];
      NatToStringInjective(-i, -j);
    }
  }
}
