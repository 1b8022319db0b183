/** The link resolver and the number formatter of utils.py. */
module Utils {
  import opened Wrappers
  import opened Chars
  import opened Decimal

  /* ---------------------------------------------------------------------
     Links. Each of the three accepted shapes is the regex
       https?://(www\.)?<host-and-path><id: [a-zA-Z0-9_-]{11}>(<lead>.*)?$
     tried with `re.match`, so it is anchored at the start; `$` also matches
     just before one final newline, and `.` never matches a newline.
     --------------------------------------------------------------------- */

  datatype Scheme = Http | Https

  datatype Shape =
    | ShortsPath   // youtube.com/shorts/<id>(?...)
    | WatchQuery   // youtube.com/watch?v=<id>(&...)
    | ShortHost    // youtu.be/<id>(?...)

  /** A link broken into the parts the regexes distinguish. */
  datatype Link = Link(scheme: Scheme, www: bool, shape: Shape, id: string, suffix: string)

  function SchemeText(s: Scheme): string {
    match s
    case Http => "http://"
    case Https => "https://"
  }

  function HostPath(shape: Shape): string {
    match shape
    case ShortsPath => "youtube.com/shorts/"
    case WatchQuery => "youtube.com/watch?v="
    case ShortHost => "youtu.be/"
  }

  /** The character that must open whatever follows the id. */
  function SuffixLead(shape: Shape): char {
    match shape
    case WatchQuery => '&'
    case _ => '?'
  }

  const IdLength: nat := 11

  predicate ValidId(id: string) {
    |id| == IdLength && forall i :: 0 <= i < |id| ==> IsIdChar(id[i])
  }

  /** What the tail `(<lead>.*)?$` accepts: nothing, or `lead` followed by a
      newline-free text, in both cases optionally followed by one final newline. */
  predicate ValidSuffix(lead: char, t: string) {
    var body := if |t| > 0 && t[|t| - 1] == '\n' then t[..|t| - 1] else t;
    && (body == [] || body[0] == lead)
    && forall i :: 0 <= i < |body| ==> body[i] != '\n'
  }

  predicate WellFormed(l: Link) {
    ValidId(l.id) && ValidSuffix(SuffixLead(l.shape), l.suffix)
  }

  function WwwText(www: bool): string {
    if www then "www." else ""
  }

  /** The text of a link. The accepted language of a shape is `Render` of its well-formed links. */
  function Render(l: Link): string {
    SchemeText(l.scheme) + (WwwText(l.www) + (HostPath(l.shape) + (l.id + l.suffix)))
  }

  function AfterPrefix(s: string, p: string): (r: Option<string>)
    ensures r.Some? <==> |p| <= |s| && s[..|p|] == p
    ensures r.Some? ==> s == p + r.value
  {
    if |p| <= |s| && s[..|p|] == p then Some(s[|p|..]) else None
  }

  /** `https?://`: the scheme and the text after it. */
  function ReadScheme(url: string): (r: Option<(Scheme, string)>)
    ensures r.Some? ==> url == SchemeText(r.value.0) + r.value.1
  {
    var secure := AfterPrefix(url, "https://");
    if secure.Some? then Some((Https, secure.value))
    else
      var plain := AfterPrefix(url, "http://");
      if plain.Some? then Some((Http, plain.value)) else None
  }

  /** `(www\.)?`, taken whenever present: no host starts with "www.", so backtracking never helps. */
  function ReadWww(s: string): (r: (bool, string))
    ensures s == WwwText(r.0) + r.1
  {
    var after := AfterPrefix(s, "www.");
    if after.Some? then (true, after.value) else (false, s)
  }

  /** The host, the fixed path, the 11-character id and the tail of one shape. */
  function ReadRest(s: string, shape: Shape): (r: Option<(string, string)>)
    ensures r.Some? ==> ValidId(r.value.0) && ValidSuffix(SuffixLead(shape), r.value.1)
    ensures r.Some? ==> s == HostPath(shape) + (r.value.0 + r.value.1)
  {
    var afterHost := AfterPrefix(s, HostPath(shape));
    if afterHost.None? || |afterHost.value| < IdLength then None
    else
      var id := afterHost.value[..IdLength];
      var suffix := afterHost.value[IdLength..];
      if ValidId(id) && ValidSuffix(SuffixLead(shape), suffix) then
        assert afterHost.value == id + suffix;
        Some((id, suffix))
      else None
  }

  /** One of the three regexes applied with `re.match`: the link it recognises, if any. */
  function MatchShape(url: string, shape: Shape): (r: Option<Link>)
    ensures r.Some? ==> WellFormed(r.value) && r.value.shape == shape && Render(r.value) == url
  {
    var scheme := ReadScheme(url);
    if scheme.None? then None
    else
      var (www, afterWww) := ReadWww(scheme.value.1);
      var rest := ReadRest(afterWww, shape);
      if rest.None? then None
      else Some(Link(scheme.value.0, www, shape, rest.value.0, rest.value.1))
  }

  /** The three patterns in the order the source tries them. */
  function ParseLink(url: string): (r: Option<Link>)
    ensures r.Some? ==> WellFormed(r.value) && Render(r.value) == url
  {
    var shorts := MatchShape(url, ShortsPath);
    if shorts.Some? then shorts
    else
      var watch := MatchShape(url, WatchQuery);
      if watch.Some? then watch else MatchShape(url, ShortHost)
  }

  /** `is_shorts_url`: one of the three patterns matches. */
  predicate IsShortsUrl(url: string): (b: bool)
    ensures b ==> exists l :: WellFormed(l) && Render(l) == url
  {
    MatchShape(url, ShortsPath).Some? || MatchShape(url, WatchQuery).Some? || MatchShape(url, ShortHost).Some?
  }

  /** `extract_video_id`: the id captured by the first matching pattern, `None` otherwise. */
  function ExtractVideoId(url: string): (r: Option<string>)
    ensures r.Some? <==> IsShortsUrl(url)
    ensures r.Some? ==> ValidId(r.value)
    ensures r.Some? ==> exists l :: WellFormed(l) && Render(l) == url && l.id == r.value
  {
    var p := ParseLink(url);
    if p.Some? then Some(p.value.id) else None
  }

  lemma AfterPrefixConcat(p: string, s: string)
    ensures AfterPrefix(p + s, p) == Some(s)
  {
    assert (p + s)[..|p|] == p;
  }

  lemma ReadSchemeRender(scheme: Scheme, tail: string)
    requires |tail| > 0 && tail[0] != '/'
    ensures ReadScheme(SchemeText(scheme) + tail) == Some((scheme, tail))
  {
    var url := SchemeText(scheme) + tail;
    match scheme {
      case Https =>
        AfterPrefixConcat("https://", tail);
      case Http =>
        assert url[4] == ':';
        AfterPrefixConcat("http://", tail);
    }
  }

  lemma ReadWwwRender(www: bool, rest: string)
    requires |rest| > 0 && rest[0] == 'y'
    ensures ReadWww(WwwText(www) + rest) == (www, rest)
  {
    if www {
      AfterPrefixConcat("www.", rest);
    } else {
      assert WwwText(www) + rest == rest;
      if |rest| >= 4 {
        assert rest[..4][0] != "www."[0];
      }
    }
  }

  lemma ReadRestRender(shape: Shape, l: Link)
    requires ValidId(l.id)
    ensures ReadRest(HostPath(l.shape) + (l.id + l.suffix), shape)
         == if shape == l.shape && ValidSuffix(SuffixLead(shape), l.suffix) then Some((l.id, l.suffix)) else None
  {
    var idTail := l.id + l.suffix;
    var rest := HostPath(l.shape) + idTail;
    if shape == l.shape {
      AfterPrefixConcat(HostPath(shape), idTail);
      assert idTail[..IdLength] == l.id && idTail[IdLength..] == l.suffix;
    } else {
      assert AfterPrefix(rest, HostPath(shape)).None? by {
        if shape == ShortHost {
          assert rest[5] == 'b';
        } else if l.shape == ShortHost {
          assert rest[5] == '.';
        } else if shape == ShortsPath {
          assert rest[12] == 'w';
        } else {
          assert rest[12] == 's';
        }
      }
    }
  }

  /** The scheme, the optional `www.` and the host are read back exactly. */
  lemma MatchShapeRender(l: Link, shape: Shape)
    requires ValidId(l.id)
    ensures MatchShape(Render(l), shape)
         == if shape == l.shape && ValidSuffix(SuffixLead(shape), l.suffix) then Some(l) else None
  {
    var rest := HostPath(l.shape) + (l.id + l.suffix);
    var tail := WwwText(l.www) + rest;
    assert rest[0] == 'y';
    assert tail[0] == 'w' || tail[0] == 'y';
    ReadSchemeRender(l.scheme, tail);
    ReadWwwRender(l.www, rest);
    ReadRestRender(shape, l);
  }

  /** Every well-formed link is accepted and yields its own parts: `ParseLink` inverts `Render`. */
  lemma ParseRender(l: Link)
    requires WellFormed(l)
    ensures ParseLink(Render(l)) == Some(l)
    ensures ExtractVideoId(Render(l)) == Some(l.id)
  {
    MatchShapeRender(l, ShortsPath);
    MatchShapeRender(l, WatchQuery);
    MatchShapeRender(l, ShortHost);
  }

  lemma ExtractRendered(l: Link, url: string)
    requires WellFormed(l) && Render(l) == url
    ensures ExtractVideoId(url) == Some(l.id)
  {
    ParseRender(l);
  }

  /** A link with a valid id but a bad tail (an extra path segment, the wrong lead
      character, a newline inside the query) is rejected by all three patterns. */
  lemma RejectBadSuffix(l: Link)
    requires ValidId(l.id) && !ValidSuffix(SuffixLead(l.shape), l.suffix)
    ensures !IsShortsUrl(Render(l))
    ensures ExtractVideoId(Render(l)) == None
  {
    MatchShapeRender(l, ShortsPath);
    MatchShapeRender(l, WatchQuery);
    MatchShapeRender(l, ShortHost);
  }

  /** The accepted language is exactly the set of rendered well-formed links. */
  lemma AcceptedLanguage(url: string)
    ensures IsShortsUrl(url) <==> exists l :: WellFormed(l) && Render(l) == url
  {
    if exists l :: WellFormed(l) && Render(l) == url {
      var l :| WellFormed(l) && Render(l) == url;
      ParseRender(l);
    }
  }

  lemma RenderShortsPathExample(l: Link)
    requires l == Link(Https, true, ShortsPath, "dQw4w9WgXcQ", "")
    ensures Render(l) == "https://www.youtube.com/shorts/dQw4w9WgXcQ"
  {
    assert l.id + l.suffix == "dQw4w9WgXcQ";
    ShortsPathSteps();
  }

  /** The three concatenations behind the path-style example. */
  lemma ShortsPathSteps()
    ensures "youtube.com/shorts/" + "dQw4w9WgXcQ" == "youtube.com/shorts/dQw4w9WgXcQ"
    ensures "www." + "youtube.com/shorts/dQw4w9WgXcQ" == "www.youtube.com/shorts/dQw4w9WgXcQ"
    ensures "https://" + "www.youtube.com/shorts/dQw4w9WgXcQ" == "https://www.youtube.com/shorts/dQw4w9WgXcQ"
  {
    HostThenId("youtube.com/shorts/", "dQw4w9WgXcQ", "youtube.com/shorts/dQw4w9WgXcQ");
    WwwStep();
    HttpsStep();
  }

  lemma WwwStep()
    ensures "www." + "youtube.com/shorts/dQw4w9WgXcQ" == "www.youtube.com/shorts/dQw4w9WgXcQ"
  {
    HostThenId("www.", "youtube.com/shorts/dQw4w9WgXcQ", "www.youtube.com/shorts/dQw4w9WgXcQ");
  }

  lemma HttpsStep()
    ensures "https://" + "www.youtube.com/shorts/dQw4w9WgXcQ" == "https://www.youtube.com/shorts/dQw4w9WgXcQ"
  {
    HostThenId("https://", "www.youtube.com/shorts/dQw4w9WgXcQ", "https://www.youtube.com/shorts/dQw4w9WgXcQ");
  }

  /** One concatenation step of a rendered link, checked character by character. */
  lemma HostThenId(a: string, b: string, ab: string)
    requires |ab| == |a| + |b|
    requires forall i :: 0 <= i < |a| ==> ab[i] == a[i]
    requires forall i :: 0 <= i < |b| ==> ab[|a| + i] == b[i]
    ensures a + b == ab
  {
  }

  /** Worked example: a path-style link with `www.`. */
  lemma ShortsPathExample()
    ensures ExtractVideoId("https://www.youtube.com/shorts/dQw4w9WgXcQ") == Some("dQw4w9WgXcQ")
  {
    var l := Link(Https, true, ShortsPath, "dQw4w9WgXcQ", "");
    RenderShortsPathExample(l);
    ExtractRendered(l, "https://www.youtube.com/shorts/dQw4w9WgXcQ");
  }

  /** Worked example: a shortened link whose query is ignored. */
  lemma ShortHostExample()
    ensures ExtractVideoId("https://youtu.be/dQw4w9WgXcQ?si=abc") == Some("dQw4w9WgXcQ")
  {
    var l := Link(Https, false, ShortHost, "dQw4w9WgXcQ", "?si=abc");
    RenderShortHostExample(l);
    ExtractRendered(l, "https://youtu.be/dQw4w9WgXcQ?si=abc");
  }

  lemma RenderShortHostExample(l: Link)
    requires l == Link(Https, false, ShortHost, "dQw4w9WgXcQ", "?si=abc")
    ensures Render(l) == "https://youtu.be/dQw4w9WgXcQ?si=abc"
  {
    assert WwwText(l.www) == "";
    ShortHostSteps();
  }

  /** The concatenations behind the shortened-link example. */
  lemma ShortHostSteps()
    ensures "dQw4w9WgXcQ" + "?si=abc" == "dQw4w9WgXcQ?si=abc"
    ensures "youtu.be/" + "dQw4w9WgXcQ?si=abc" == "youtu.be/dQw4w9WgXcQ?si=abc"
    ensures "" + "youtu.be/dQw4w9WgXcQ?si=abc" == "youtu.be/dQw4w9WgXcQ?si=abc"
    ensures "https://" + "youtu.be/dQw4w9WgXcQ?si=abc" == "https://youtu.be/dQw4w9WgXcQ?si=abc"
  {
    HostThenId("dQw4w9WgXcQ", "?si=abc", "dQw4w9WgXcQ?si=abc");
    ShortHostStep();
    HttpsShortStep();
  }

  lemma ShortHostStep()
    ensures "youtu.be/" + "dQw4w9WgXcQ?si=abc" == "youtu.be/dQw4w9WgXcQ?si=abc"
  {
    HostThenId("youtu.be/", "dQw4w9WgXcQ?si=abc", "youtu.be/dQw4w9WgXcQ?si=abc");
  }

  lemma HttpsShortStep()
    ensures "https://" + "youtu.be/dQw4w9WgXcQ?si=abc" == "https://youtu.be/dQw4w9WgXcQ?si=abc"
  {
    HostThenId("https://", "youtu.be/dQw4w9WgXcQ?si=abc", "https://youtu.be/dQw4w9WgXcQ?si=abc");
  }

  /** Worked example: a link to another host is rejected. */
  lemma OtherHostExample()
    ensures ExtractVideoId("https://example.com/video") == None
  {
    var url := "https://example.com/video";
    AfterPrefixConcat("https://", "example.com/video");
    assert "example.com/video"[..4] == "exam";
    assert ReadWww("example.com/video") == (false, "example.com/video");
    assert ReadRest("example.com/video", ShortsPath) == None;
    assert ReadRest("example.com/video", WatchQuery) == None;
    assert ReadRest("example.com/video", ShortHost) == None;
  }

  /* ---------------------------------------------------------------------
     format_number: the choice of suffix. The `.1f` rounding of the
     mantissa is not modelled; the mantissa is kept exact.
     --------------------------------------------------------------------- */

  datatype Magnitude = Thousand | Million | Billion {
    function Scale(): nat {
      match this
      case Thousand => 1_000
      case Million => 1_000_000
      case Billion => 1_000_000_000
    }
    function Suffix(): char {
      match this
      case Thousand => 'K'
      case Million => 'M'
      case Billion => 'B'
    }
  }

  datatype Display = Plain(text: string) | Abbreviated(mantissa: real, magnitude: Magnitude)

  /** `format_number`: `None` shows "0", values below 1000 (negatives too) show
      as `str(num)`, larger values as a mantissa and the largest suffix whose
      threshold is met, so the mantissa is at least 1 and, below a billion, under 1000. */
  function FormatNumber(num: Option<int>): (r: Display)
    ensures num.None? ==> r == Plain("0")
    ensures num.Some? && num.value < 1000 ==> r.Plain? && IntText(r.text) && ParseInt(r.text) == Some(num.value)
    ensures num.Some? && num.value >= 1000 ==>
      && r.Abbreviated?
      && r.mantissa * r.magnitude.Scale() as real == num.value as real
      && 1.0 <= r.mantissa
      && (r.magnitude != Billion ==> r.mantissa < 1000.0)
  {
    match num
    case None => Plain("0")
    case Some(n) =>
      if n >= 1_000_000_000 then Abbreviated(n as real / 1_000_000_000.0, Billion)
      else if n >= 1_000_000 then Abbreviated(n as real / 1_000_000.0, Million)
      else if n >= 1_000 then Abbreviated(n as real / 1_000.0, Thousand)
      else ParseIntToString(n); Plain(IntToString(n))
  }
}
