/** The `ping` command: how long the bot has been up and how much memory it
    uses, read from the proportional set sizes in `/proc/self/smaps`. */
module Ping {
  import opened Wrappers
  import opened Platform
  import Text

  const Names: seq<string> := ["ping"]
  const Cooldown: nat := 5
  const RequiredPermissions: Permissions := Default

  // ---------------------------------------------------------------- uptime

  function Hours(secs: nat): nat { (secs / 60) / 60 }
  function Minutes(secs: nat): nat { (secs / 60) % 60 }

  /** The hours are whole hours and the minutes what is left of whole minutes. */
  lemma HoursAndMinutes(secs: nat)
    ensures Hours(secs) == secs / 3600
    ensures Minutes(secs) < 60
    ensures Hours(secs) * 60 + Minutes(secs) == secs / 60
  {
  }

  /** The uptime text: `"{h}h "` when there are hours, then `"{m}m "` when
      there are minutes, and `"{secs}s"` only when neither was written. */
  function UptimeText(secs: nat): string {
    (if Hours(secs) != 0 then Text.NatToString(Hours(secs)) + "h " else "") +
    (if Minutes(secs) != 0 then Text.NatToString(Minutes(secs)) + "m " else "") +
    (if Hours(secs) == 0 && Minutes(secs) == 0 then Text.NatToString(secs) + "s" else "")
  }

  /** The loop-free formatting of `execute`, writing the parts in turn. */
  method FormatUptime(secs: nat) returns (result: string)
    ensures result == UptimeText(secs)
    ensures result != []
  {
    var minutes := (secs / 60) % 60;
    var hours := (secs / 60) / 60;
    result := "";
    if hours != 0 {
      result := result + Text.NatToString(hours) + "h ";
    }
    if minutes != 0 {
      result := result + Text.NatToString(minutes) + "m ";
    }
    if result == [] {
      result := result + Text.NatToString(secs) + "s";
    }
  }

  /** Seconds are shown exactly when the bot has been up less than a minute,
      and only then is the text free of an `h` and an `m` part. */
  lemma SecondsOnlyUnderAMinute(secs: nat)
    ensures Hours(secs) == 0 && Minutes(secs) == 0 <==> secs < 60
  {
    HoursAndMinutes(secs);
  }

  /** From one hour on, whole minutes of a full hour are not written: an
      uptime of exactly `h` hours reads `"{h}h "`. */
  lemma WholeHours(h: nat)
    requires h > 0
    ensures Hours(h * 3600) == h && Minutes(h * 3600) == 0
  {
    assert h * 3600 / 60 == h * 60;
  }

  // ---------------------------------------------------------------- memory

  predicate StartsWith(s: string, prefix: string) {
    prefix <= s
  }

  /** What one line of smaps adds to the total: the second whitespace token
      of a `Pss:` or `SwapPss:` line as an `i32`, nothing for other lines; a
      missing token or one that is not an `i32` makes an `unwrap` panic. */
  function LineContribution(line: string): (r: Outcome<int>)
    ensures !StartsWith(line, "Pss:") && !StartsWith(line, "SwapPss:") ==> r == Returned(0)
    ensures r.Returned? ==> Text.I32Min <= r.value <= Text.I32Max
  {
    if !StartsWith(line, "Pss:") && !StartsWith(line, "SwapPss:") then Returned(0)
    else
      var tokens := Text.Tokens(line);
      if |tokens| < 2 then Panicked(UnwrapNone)
      else match Text.ParseI32(tokens[1])
        case None => Panicked(UnwrapErr)
        case Some(v) => Returned(v)
  }

  /** The body of the loop over the lines: the `Pss` value the line holds. */
  method ReadLine(line: string) returns (c: Outcome<int>)
    ensures c == LineContribution(line)
  {
    if StartsWith(line, "Pss:") || StartsWith(line, "SwapPss:") {
      var split := Text.Tokens(line);
      if |split| < 2 {
        return Panicked(UnwrapNone);
      }
      var pss := Text.ParseI32(split[1]);
      if pss.None? {
        return Panicked(UnwrapErr);
      }
      return Returned(pss.value);
    }
    return Returned(0);
  }

  /** Each line's contribution, in order. */
  function Contributions(lines: seq<string>): (cs: seq<Outcome<int>>)
    ensures |cs| == |lines|
  {
    if lines == [] then [] else [LineContribution(lines[0])] + Contributions(lines[1..])
  }

  /** The contribution at a position is that of the line at the same position. */
  lemma {:induction false} ContributionAt(lines: seq<string>, i: nat)
    requires i < |lines|
    ensures Contributions(lines)[i] == LineContribution(lines[i])
  {
    if i > 0 {
      ContributionAt(lines[1..], i - 1);
    }
  }

  /** A running total of contributions; the first panic is the result. */
  function Sum(cs: seq<Outcome<int>>): Outcome<int> {
    if cs == [] then Returned(0)
    else
      match Sum(cs[..|cs| - 1])
      case Panicked(reason) => Panicked(reason)
      case Returned(t) =>
        match cs[|cs| - 1]
        case Panicked(reason) => Panicked(reason)
        case Returned(v) => Returned(t + v)
  }

  /** The sum over the lines, in order; the first panicking line ends it. */
  function PssTotal(lines: seq<string>): Outcome<int> {
    Sum(Contributions(lines))
  }

  /** The memory usage in KiB: the total over `smaps.lines()`. */
  method SumPss(smaps: string) returns (r: Outcome<int>)
    ensures r == PssTotal(Text.Lines(smaps))
  {
    r := SumLines(Text.Lines(smaps));
  }

  /** The loop accumulating `mem_usage`. */
  method SumLines(lines: seq<string>) returns (r: Outcome<int>)
    ensures r == PssTotal(lines)
  {
    ghost var cs := Contributions(lines);
    var memUsage := 0;
    var i := 0;
    while i < |lines|
      invariant 0 <= i <= |lines|
      invariant Sum(cs[..i]) == Returned(memUsage)
    {
      var c := ReadLine(lines[i]);
      ContributionAt(lines, i);
      SumStep(cs, i, memUsage);
      if c.Panicked? {
        return c;
      }
      memUsage := memUsage + c.value;
      i := i + 1;
    }
    assert cs[..i] == cs;
    r := Returned(memUsage);
  }

  /** One turn of the loop: a panicking contribution is the whole sum, any
      other extends the running total. */
  lemma SumStep(cs: seq<Outcome<int>>, i: nat, total: int)
    requires i < |cs| && Sum(cs[..i]) == Returned(total)
    ensures cs[i].Panicked? ==> Sum(cs) == cs[i]
    ensures cs[i].Returned? ==> Sum(cs[..i + 1]) == Returned(total + cs[i].value)
  {
    SumPrefixStep(cs, i);
    if cs[i].Panicked? {
      PanicIsFinal(cs, i + 1);
    }
  }

  /** One more element of a prefix. */
  lemma SumPrefixStep(cs: seq<Outcome<int>>, i: nat)
    requires i < |cs|
    ensures Sum(cs[..i + 1]) ==
      match Sum(cs[..i])
      case Panicked(reason) => Panicked(reason)
      case Returned(t) => (match cs[i] case Panicked(reason) => Panicked(reason) case Returned(v) => Returned(t + v))
  {
    assert cs[..i + 1][..i] == cs[..i];
  }

  /** Once a prefix of the contributions has panicked, the whole sum is that panic. */
  lemma {:induction false} PanicIsFinal(cs: seq<Outcome<int>>, k: nat)
    requires 0 < k <= |cs| && Sum(cs[..k]).Panicked?
    ensures Sum(cs) == Sum(cs[..k])
    decreases |cs| - k
  {
    if k < |cs| {
      SumPrefixStep(cs, k);
      PanicIsFinal(cs, k + 1);
    } else {
      assert cs[..k] == cs;
    }
  }

  /** Lines that are neither `Pss:` nor `SwapPss:` lines add nothing. */
  lemma OtherLinesAddNothing(lines: seq<string>)
    requires forall i :: 0 <= i < |lines| ==> !StartsWith(lines[i], "Pss:") && !StartsWith(lines[i], "SwapPss:")
    ensures PssTotal(lines) == Returned(0)
  {
    forall i | 0 <= i < |lines| ensures Contributions(lines)[i] == Returned(0) {
      ContributionAt(lines, i);
    }
    ZerosSumToZero(Contributions(lines));
  }

  lemma {:induction false} ZerosSumToZero(cs: seq<Outcome<int>>)
    requires forall i :: 0 <= i < |cs| ==> cs[i] == Returned(0)
    ensures Sum(cs) == Returned(0)
  {
    if cs != [] {
      ZerosSumToZero(cs[..|cs| - 1]);
    }
  }

  /** The total over two stretches of lines is the sum of their totals. */
  lemma PssTotalAppend(a: seq<string>, b: seq<string>)
    requires PssTotal(a).Returned? && PssTotal(b).Returned?
    ensures PssTotal(a + b) == Returned(PssTotal(a).value + PssTotal(b).value)
  {
    var ca, cb := Contributions(a), Contributions(b);
    ContributionsAppend(a, b);
    SumAppend(ca, cb);
    assert PssTotal(a + b) == Sum(ca + cb);
  }

  lemma ContributionsAppend(a: seq<string>, b: seq<string>)
    ensures Contributions(a + b) == Contributions(a) + Contributions(b)
  {
    var ca, cb, cab := Contributions(a), Contributions(b), Contributions(a + b);
    forall i | 0 <= i < |cab| ensures cab[i] == (ca + cb)[i] {
      ContributionAt(a + b, i);
      if i < |a| {
        assert (a + b)[i] == a[i];
        ContributionAt(a, i);
      } else {
        assert (a + b)[i] == b[i - |a|];
        ContributionAt(b, i - |a|);
      }
    }
  }

  lemma {:induction false} SumAppend(a: seq<Outcome<int>>, b: seq<Outcome<int>>)
    requires Sum(a).Returned? && Sum(b).Returned?
    ensures Sum(a + b) == Returned(Sum(a).value + Sum(b).value)
    decreases |b|
  {
    if b == [] {
      assert a + b == a;
    } else {
      var init := b[..|b| - 1];
      var ab := a + b;
      assert ab[..|ab| - 1] == a + init && ab[|ab| - 1] == b[|b| - 1];
      SumAppend(a, init);
    }
  }

  // ----------------------------------------------------------------- reply

  /** Rust's `/` on signed integers, which rounds toward zero. */
  function TruncatingDiv(a: int, b: int): int
    requires b > 0
  {
    if a >= 0 then a / b else -((-a) / b)
  }

  /** The reply's memory figure: the KiB total in whole MiB, rounding toward zero. */
  lemma MebibytesBounds(kib: int)
    ensures kib >= 0 ==> TruncatingDiv(kib, 1024) * 1024 <= kib < (TruncatingDiv(kib, 1024) + 1) * 1024
    ensures kib < 0 ==> (TruncatingDiv(kib, 1024) - 1) * 1024 < kib <= TruncatingDiv(kib, 1024) * 1024
  {
  }

  function Reply(version: string, uptime: string, kib: int): string {
    "Pong! Version: " + version + ", Uptime " + uptime + ", RAM usage: " + Text.IntToString(TruncatingDiv(kib, 1024)) + " MiB"
  }

  /** `Ping::execute`, given the seconds since start-up, the text of
      `/proc/self/smaps` and the version string: a panic while reading the
      memory figure is the outcome, otherwise the reply. */
  method Execute(secs: nat, smaps: string, version: string) returns (r: Outcome<string>)
    ensures r == match PssTotal(Text.Lines(smaps))
                 case Panicked(reason) => Panicked(reason)
                 case Returned(kib) => Returned(Reply(version, UptimeText(secs), kib))
  {
    var uptime := FormatUptime(secs);
    var total := SumPss(smaps);
    if total.Panicked? {
      return Panicked(total.reason);
    }
    r := Returned(Reply(version, uptime, total.value));
  }

  /** The uptime text is the plain seconds exactly when there are no whole minutes. */
  lemma UptimeNamesSeconds(secs: nat)
    ensures Hours(secs) == 0 && Minutes(secs) == 0 <==> UptimeText(secs) == Text.NatToString(secs) + "s"
  {
    var uptime := UptimeText(secs);
    if Hours(secs) != 0 || Minutes(secs) != 0 {
      var last := uptime[|uptime| - 1];
      assert last == ' ';
      var s := Text.NatToString(secs) + "s";
      assert s[|s| - 1] == 's';
    }
  }

  /** An uptime of exactly `h` hours reads `"{h}h "`. */
  lemma WholeHoursText(h: nat)
    requires h > 0
    ensures UptimeText(h * 3600) == Text.NatToString(h) + "h "
  {
    WholeHours(h);
  }
}
