/**
 * The formatter (src/config/utils.ts): `formatDate` with its inner `pad`, and
 * `formatLogMessage`.
 */
module Utils {
  import opened Strings
  import opened LoggerTypes

  /**
   * The local-time fields of a `Date` as its getters return them: `month` is
   * `getMonth()`, counted from 0.
   */
  datatype DateTime = DateTime(year: int, month: nat, day: nat, hours: nat, minutes: nat, seconds: nat)

  /** Fields within the ranges a valid `Date` produces, and a four-digit year. */
  predicate InRange(d: DateTime) {
    1000 <= d.year <= 9999 && d.month < 12 && 1 <= d.day <= 31
    && d.hours < 24 && d.minutes < 60 && d.seconds < 60
  }

  /** `pad`: `num.toString().padStart(2, '0')`. */
  function Pad(n: nat): (r: string)
    ensures n < 10 ==> r == ['0', DigitChar(n)]
    ensures n >= 10 ==> r == NatToString(n)
    ensures AllDigits(r) && ParseNat(r) == n
  {
    ParseNatToString(n);
    if n < 10 then ParseNatLeadingZero(NatToString(n)); PadStart(NatToString(n), 2, '0')
    else PadStart(NatToString(n), 2, '0')
  }

  /** `formatDate`: `YYYY-MM-DD HH:mm:ss` from the local-time fields. */
  function FormatDate(d: DateTime): (r: string)
    ensures var y := IntToString(d.year);
      |y| < |r| && r[..|y|] == y && r[|y|] == '-'
  {
    IntToString(d.year) + "-" + Pad(d.month + 1) + "-" + Pad(d.day)
      + " " + Pad(d.hours) + ":" + Pad(d.minutes) + ":" + Pad(d.seconds)
  }

  /**
   * For in-range fields the date is 19 characters with its separators at fixed
   * places, and each field reads back from its slot.
   */
  lemma {:induction false} FormatDateLayout(d: DateTime)
    requires InRange(d)
    ensures var r := FormatDate(d);
      && |r| == 19
      && r[4] == '-' && r[7] == '-' && r[10] == ' ' && r[13] == ':' && r[16] == ':'
      && AllDigits(r[0..4]) && ParseNat(r[0..4]) == d.year
      && AllDigits(r[5..7]) && ParseNat(r[5..7]) == d.month + 1
      && AllDigits(r[8..10]) && ParseNat(r[8..10]) == d.day
      && AllDigits(r[11..13]) && ParseNat(r[11..13]) == d.hours
      && AllDigits(r[14..16]) && ParseNat(r[14..16]) == d.minutes
      && AllDigits(r[17..19]) && ParseNat(r[17..19]) == d.seconds
  {
    NatToStringLength(d.year);
    ParseNatToString(d.year);
    PadLength(d.month + 1);
    PadLength(d.day);
    PadLength(d.hours);
    PadLength(d.minutes);
    PadLength(d.seconds);
    DateSlots(IntToString(d.year), Pad(d.month + 1), Pad(d.day), Pad(d.hours), Pad(d.minutes), Pad(d.seconds));
  }

  lemma PadLength(n: nat)
    requires n < 100
    ensures |Pad(n)| == 2
  {
    NatToStringLength(n);
  }

  /** Where each piece of a `Y-M-D h:m:s` string sits, given the pieces' widths. */
  lemma DateSlots(y: string, mo: string, da: string, h: string, mi: string, s: string)
    requires |y| == 4 && |mo| == 2 && |da| == 2 && |h| == 2 && |mi| == 2 && |s| == 2
    ensures var r := y + "-" + mo + "-" + da + " " + h + ":" + mi + ":" + s;
      && |r| == 19
      && r[4] == '-' && r[7] == '-' && r[10] == ' ' && r[13] == ':' && r[16] == ':'
      && r[0..4] == y && r[5..7] == mo && r[8..10] == da
      && r[11..13] == h && r[14..16] == mi && r[17..19] == s
  {
    var r := y + "-" + mo + "-" + da + " " + h + ":" + mi + ":" + s;
    assert r[0..4] == y by { assert r[0] == y[0] && r[1] == y[1] && r[2] == y[2] && r[3] == y[3]; }
    assert r[5..7] == mo by { assert r[5] == mo[0] && r[6] == mo[1]; }
    assert r[8..10] == da by { assert r[8] == da[0] && r[9] == da[1]; }
    assert r[11..13] == h by { assert r[11] == h[0] && r[12] == h[1]; }
    assert r[14..16] == mi by { assert r[14] == mi[0] && r[15] == mi[1]; }
    assert r[17..19] == s by { assert r[17] == s[0] && r[18] == s[1]; }
  }

  /** The instant 2024-03-05 08:07:09 (March is month 2) renders zero-padded. */
  lemma FormatDateExample()
    ensures FormatDate(DateTime(2024, 2, 5, 8, 7, 9)) == "2024-03-05 08:07:09"
  {
    assert NatToString(2024) == "2024" by {
      assert NatToString(2) == "2";
      assert NatToString(20) == "20";
      assert NatToString(202) == "202";
    }
  }

  /**
   * One argument as `formatLogMessage` renders it: a string verbatim, anything
   * else through `JSON.stringify(arg, null, 2)`. `undefined` makes `stringify`
   * return `undefined`, which `join` prints as the empty string.
   */
  function Render(a: Arg): (r: string)
    ensures a.Str? ==> r == a.s
    ensures a.Undefined? ==> r == ""
    ensures a.Num? && a.n >= 0 ==> AllDigits(r) && ParseNat(r) == a.n
    ensures a.Bool? ==> (r == "true" <==> a.b)
  {
    match a
    case Str(s) => s
    case Num(n) => (if n >= 0 then ParseNatToString(n); IntToString(n) else IntToString(n))
    case Bool(b) => if b then "true" else "false"
    case Null => "null"
    case Undefined => ""
    case Structured(json) => json
  }

  /** `args.map(render)`. */
  function Rendered(args: seq<Arg>): (parts: seq<string>)
    ensures |parts| == |args|
    ensures forall i :: 0 <= i < |args| ==> parts[i] == Render(args[i])
  {
    seq(|args|, i requires 0 <= i < |args| => Render(args[i]))
  }

  /** `formatLogMessage`: the rendered arguments joined by one space; level and tag are unused. */
  function FormatLogMessage(level: LogLevel, tag: string, args: seq<Arg>): (r: string)
    ensures args == [] ==> r == ""
    ensures |args| == 1 ==> r == Render(args[0])
  {
    Join(Rendered(args), " ")
  }

  /** The message does not depend on the level or the tag it is formatted for. */
  lemma FormatIgnoresLevelAndTag(l1: LogLevel, t1: string, l2: LogLevel, t2: string, args: seq<Arg>)
    ensures FormatLogMessage(l1, t1, args) == FormatLogMessage(l2, t2, args)
  {
  }

  /** A further argument adds exactly one space and its rendering. */
  lemma FormatAppend(level: LogLevel, tag: string, args: seq<Arg>, a: Arg)
    requires args != []
    ensures FormatLogMessage(level, tag, args + [a]) == FormatLogMessage(level, tag, args) + " " + Render(a)
  {
    assert Rendered(args + [a]) == Rendered(args) + [Render(a)];
    JoinAppend(Rendered(args), Render(a), " ");
  }

  /**
   * When no rendered argument contains a space, splitting the message at its
   * spaces recovers every rendering, so string arguments appear verbatim.
   */
  lemma FormatSplitsBack(level: LogLevel, tag: string, args: seq<Arg>)
    requires args != []
    requires forall i :: 0 <= i < |args| ==> ' ' !in Render(args[i])
    ensures var parts := Split(FormatLogMessage(level, tag, args), ' ');
      && |parts| == |args|
      && (forall i :: 0 <= i < |args| ==> parts[i] == Render(args[i]))
      && (forall i :: 0 <= i < |args| && args[i].Str? ==> parts[i] == args[i].s)
  {
    SplitJoin(Rendered(args), ' ');
  }

  /** The `[date] ` prefix every channel writes when `formatTimestamp` is on. */
  function TimestampPrefix(config: LoggerConfig, now: DateTime): (p: string)
    ensures config.formatTimestamp <==> p != ""
  {
    if config.formatTimestamp then "[" + FormatDate(now) + "] " else ""
  }
}
