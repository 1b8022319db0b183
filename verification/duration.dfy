/** The `PT[nH][nM][nS]` duration reader shared by data_processor.py and youtube_api.py. */
module Duration {
  import opened Wrappers
  import opened Chars
  import opened Decimal

  /** Length of the leading run of digits. */
  function DigitRun(s: string): (n: nat)
    ensures n <= |s|
    ensures forall i :: 0 <= i < n ==> IsDigit(s[i])
    ensures n < |s| ==> !IsDigit(s[n])
  {
    if s == [] || !IsDigit(s[0]) then 0 else 1 + DigitRun(s[1..])
  }

  /** `(?:(\d+)U)?` at the front of `s`: the captured number, 0 when the group
      is skipped, and the text after it. The greedy digit run is the only one
      that can be followed by the unit letter, so backtracking never changes the match. */
  function Component(s: string, unit: char): (r: (nat, string))
    requires !IsDigit(unit)
  {
    var n := DigitRun(s);
    if 0 < n < |s| && s[n] == unit then
      assert AllDigits(s[..n]);
      (ValueOf(s[..n]), s[n + 1..])
    else (0, s)
  }

  predicate HasPrefixPT(d: string) {
    |d| >= 2 && d[..2] == "PT"
  }

  /** `re.match(r'PT(?:(\d+)H)?(?:(\d+)M)?(?:(\d+)S)?', d)`: no match unless the
      text starts with "PT"; otherwise the hours, minutes and seconds read in that
      order, absent parts counting 0, and anything after them ignored. */
  function MatchDuration(d: string): (r: Option<nat>)
    ensures r.None? <==> !HasPrefixPT(d)
  {
    if HasPrefixPT(d) then
      var (h, afterH) := Component(d[2..], 'H');
      var (m, afterM) := Component(afterH, 'M');
      var (sec, _) := Component(afterM, 'S');
      Some(h * 3600 + m * 60 + sec)
    else None
  }

  /** `duration_seconds` of process_video_data: an unmatched duration reads as 0. */
  function DurationSeconds(d: string): (r: nat)
    ensures !HasPrefixPT(d) ==> r == 0
    ensures HasPrefixPT(d) ==> Some(r) == MatchDuration(d)
  {
    MatchDuration(d).GetOr(0)
  }

  /* ---------------------------------------------------------------------
     The durations the format declares, and their text.
     --------------------------------------------------------------------- */

  /** Which of the three parts a duration text carries, and their values. */
  datatype Declared = Declared(hours: Option<nat>, minutes: Option<nat>, seconds: Option<nat>)

  function TotalSeconds(p: Declared): nat {
    p.hours.GetOr(0) * 3600 + p.minutes.GetOr(0) * 60 + p.seconds.GetOr(0)
  }

  function Part(o: Option<nat>, unit: char): string {
    match o
    case None => ""
    case Some(n) => NatToString(n) + [unit]
  }

  /** The ISO 8601 text of a declared duration, e.g. "PT1H30S". */
  function Render(p: Declared): string {
    "PT" + (Part(p.hours, 'H') + (Part(p.minutes, 'M') + Part(p.seconds, 'S')))
  }

  /** The group for `unit` does not match at the front of `s`. */
  predicate Skips(s: string, unit: char) {
    var n := DigitRun(s);
    !(0 < n < |s| && s[n] == unit)
  }

  lemma {:induction false} DigitRunOfDigits(ds: string, rest: string)
    requires AllDigits(ds)
    requires rest == [] || !IsDigit(rest[0])
    ensures DigitRun(ds + rest) == |ds|
    decreases |ds|
  {
    if ds != [] {
      var s := ds + rest;
      assert s[0] == ds[0];
      assert s[1..] == ds[1..] + rest;
      DigitRunOfDigits(ds[1..], rest);
    } else {
      assert ds + rest == rest;
    }
  }

  /** Reading a part back: its value when present, 0 and nothing consumed when absent. */
  lemma ReadPart(o: Option<nat>, unit: char, rest: string)
    requires !IsDigit(unit)
    requires Skips(rest, unit)
    ensures Component(Part(o, unit) + rest, unit) == (o.GetOr(0), rest)
  {
    match o {
      case None =>
        assert Part(o, unit) + rest == rest;
      case Some(n) =>
        var ds := NatToString(n);
        var s := ds + ([unit] + rest);
        assert Part(o, unit) + rest == s;
        DigitRunOfDigits(ds, [unit] + rest);
        assert s[|ds|] == unit;
        assert s[..|ds|] == ds;
        assert s[|ds| + 1..] == rest;
        ValueOfNatToString(n);
    }
  }

  /** A part for another unit never matches the group for `unit`. */
  lemma PartSkips(o: Option<nat>, other: char, rest: string, unit: char)
    requires !IsDigit(other) && other != unit
    requires Skips(rest, unit)
    ensures Skips(Part(o, other) + rest, unit)
  {
    match o {
      case None =>
        assert Part(o, other) + rest == rest;
      case Some(n) =>
        var ds := NatToString(n);
        var s := ds + ([other] + rest);
        assert Part(o, other) + rest == s;
        DigitRunOfDigits(ds, [other] + rest);
        assert s[|ds|] == other;
    }
  }

  lemma MatchFromComponents(d: string, pm: string, ps: string, tail: string, h: nat, m: nat, sec: nat)
    requires HasPrefixPT(d)
    requires Component(d[2..], 'H') == (h, pm)
    requires Component(pm, 'M') == (m, ps)
    requires Component(ps, 'S') == (sec, tail)
    ensures MatchDuration(d) == Some(h * 3600 + m * 60 + sec)
  {
  }

  lemma RenderSplit(p: Declared, tail: string)
    ensures HasPrefixPT(Render(p) + tail)
    ensures (Render(p) + tail)[2..] == Part(p.hours, 'H') + (Part(p.minutes, 'M') + (Part(p.seconds, 'S') + tail))
  {
    var d := Render(p) + tail;
    var rest := Part(p.hours, 'H') + (Part(p.minutes, 'M') + (Part(p.seconds, 'S') + tail));
    assert d == "PT" + rest;
    assert d[..2] == "PT";
  }

  lemma ReadHours(p: Declared, tail: string)
    requires tail == [] || !IsDigit(tail[0])
    ensures var pm := Part(p.minutes, 'M') + (Part(p.seconds, 'S') + tail);
      Component(Part(p.hours, 'H') + pm, 'H') == (p.hours.GetOr(0), pm)
  {
    var ps := Part(p.seconds, 'S') + tail;
    var pm := Part(p.minutes, 'M') + ps;
    assert Skips(tail, 'H');
    PartSkips(p.seconds, 'S', tail, 'H');
    PartSkips(p.minutes, 'M', ps, 'H');
    ReadPart(p.hours, 'H', pm);
  }

  lemma ReadMinutes(p: Declared, tail: string)
    requires tail == [] || !IsDigit(tail[0])
    ensures var ps := Part(p.seconds, 'S') + tail;
      Component(Part(p.minutes, 'M') + ps, 'M') == (p.minutes.GetOr(0), ps)
  {
    assert Skips(tail, 'M');
    PartSkips(p.seconds, 'S', tail, 'M');
    ReadPart(p.minutes, 'M', Part(p.seconds, 'S') + tail);
  }

  lemma ReadSeconds(p: Declared, tail: string)
    requires tail == [] || !IsDigit(tail[0])
    ensures Component(Part(p.seconds, 'S') + tail, 'S') == (p.seconds.GetOr(0), tail)
  {
    assert Skips(tail, 'S');
    ReadPart(p.seconds, 'S', tail);
  }

  /** The reader inverts the writer: a declared duration, followed by anything
      that does not start with a digit, reads as its total number of seconds. */
  lemma ParseRender(p: Declared, tail: string)
    requires tail == [] || !IsDigit(tail[0])
    ensures MatchDuration(Render(p) + tail) == Some(TotalSeconds(p))
    ensures DurationSeconds(Render(p) + tail) == TotalSeconds(p)
  {
    var ps := Part(p.seconds, 'S') + tail;
    var pm := Part(p.minutes, 'M') + ps;
    RenderSplit(p, tail);
    ReadHours(p, tail);
    ReadMinutes(p, tail);
    ReadSeconds(p, tail);
    MatchFromComponents(Render(p) + tail, pm, ps, tail, p.hours.GetOr(0), p.minutes.GetOr(0), p.seconds.GetOr(0));
  }

  /** "PT" with no parts matches and reads as 0 seconds. */
  lemma BarePrefix(tail: string)
    requires tail == [] || !IsDigit(tail[0])
    ensures MatchDuration("PT" + tail) == Some(0)
  {
    ParseRender(Declared(None, None, None), tail);
    assert Render(Declared(None, None, None)) == "PT";
  }
}
