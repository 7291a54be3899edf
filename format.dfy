/**
 * The browser script's pure display helpers: the ETA text, HTML escaping,
 * the status label and its CSS class, and the file-priority label.
 */
module Format {
  import opened Common
  import opened Text

  // ====================================================================
  // formatETA
  // ====================================================================

  /** qBittorrent's "no estimate" value of `eta`. */
  const EtaInfinite: int := 8640000
  const Infinity: string := "\U{221E}"

  /** `formatETA(eta)` for integral `eta`: the first matching branch of the ladder wins. */
  function FormatEta(eta: int): string {
    if eta == EtaInfinite then Infinity
    else if eta < 0 then "0s"
    else if eta < 60 then NatToString(eta) + "s"
    else if eta < 3600 then NatToString(eta / 60) + "m " + NatToString(eta % 60) + "s"
    else if eta < 86400 then NatToString(eta / 3600) + "h " + NatToString((eta % 3600) / 60) + "m"
    else NatToString(eta / 86400) + "d " + NatToString((eta % 86400) / 3600) + "h"
  }

  /** What a displayed ETA tells the reader: no estimate, or "between low and low + width seconds". */
  datatype EtaReading = Forever | Span(low: nat, width: nat)

  function UnitSeconds(c: char): nat {
    if c == 's' then 1 else if c == 'm' then 60 else if c == 'h' then 3600 else if c == 'd' then 86400 else 0
  }

  /** One "<digits><unit>" part of an ETA text and what follows it. */
  datatype EtaPart = EtaPart(amount: nat, unit: nat, rest: string)

  function ReadPart(t: string): Option<EtaPart> {
    var n := LeadingDigits(t);
    if n == 0 || n == |t| || UnitSeconds(t[n]) == 0 then None
    else Some(EtaPart(DigitsValue(t[..n]), UnitSeconds(t[n]), t[n + 1..]))
  }

  /**
   * Reads an ETA text of the shapes "∞", "<n><unit>" and "<n><unit> <n><unit>";
   * the width of the reading is the unit of its last part.
   */
  function ReadEta(t: string): Option<EtaReading> {
    if t == Infinity then Some(Forever)
    else match ReadPart(t)
      case None => None
      case Some(p) =>
        if p.rest == [] then Some(Span(p.amount * p.unit, p.unit))
        else if p.rest[0] != ' ' then None
        else match ReadPart(p.rest[1..])
          case None => None
          case Some(q) =>
            if q.rest != [] then None
            else Some(Span(p.amount * p.unit + q.amount * q.unit, q.unit))
  }

  lemma ReadPartOf(d: string, u: char, rest: string)
    requires d != [] && AllDigits(d) && UnitSeconds(u) > 0
    ensures ReadPart(d + [u] + rest) == Some(EtaPart(DigitsValue(d), UnitSeconds(u), rest))
  {
    var t := d + ([u] + rest);
    assert d + [u] + rest == t;
    LeadingDigitsOfConcat(d, [u] + rest);
    assert t[|d|] == u;
    assert t[|d| + 1..] == rest;
  }

  /** The precision of the displayed ETA: seconds below an hour, minutes below a day, hours above. */
  function EtaResolution(eta: nat): nat {
    if eta < 3600 then 1 else if eta < 86400 then 60 else 3600
  }

  predicate Brackets(r: Option<EtaReading>, eta: int) {
    r.Some? && r.value.Span? && r.value.low <= eta < r.value.low + r.value.width
  }

  lemma ReadOnePart(a: nat, u: char)
    requires UnitSeconds(u) > 0
    ensures ReadEta(NatToString(a) + [u]) == Some(Span(a * UnitSeconds(u), UnitSeconds(u)))
  {
    var d := NatToString(a);
    NatToStringValue(a);
    ReadOneDigitsPart(d, u);
  }

  lemma ReadOneDigitsPart(d: string, u: char)
    requires d != [] && AllDigits(d) && UnitSeconds(u) > 0
    ensures ReadEta(d + [u]) == Some(Span(DigitsValue(d) * UnitSeconds(u), UnitSeconds(u)))
  {
    ReadPartOf(d, u, []);
    assert d + [u] + [] == d + [u];
    NotInfinity(d, [u]);
  }

  /** A two-part ETA text reads as the sum of its parts, to the precision of the second unit. */
  lemma ReadTwoParts(t: string, a: nat, u1: char, b: nat, u2: char)
    requires UnitSeconds(u1) > 0 && UnitSeconds(u2) > 0
    requires t == NatToString(a) + [u1, ' '] + NatToString(b) + [u2]
    ensures ReadEta(t) == Some(Span(a * UnitSeconds(u1) + b * UnitSeconds(u2), UnitSeconds(u2)))
  {
    NatToStringValue(a);
    NatToStringValue(b);
    ReadTwoDigitsParts(t, NatToString(a), u1, NatToString(b), u2, a, b);
  }

  lemma ReadTwoDigitsParts(t: string, d1: string, u1: char, d2: string, u2: char, a: nat, b: nat)
    requires d1 != [] && AllDigits(d1) && DigitsValue(d1) == a
    requires d2 != [] && AllDigits(d2) && DigitsValue(d2) == b
    requires UnitSeconds(u1) > 0 && UnitSeconds(u2) > 0
    requires t == d1 + [u1, ' '] + d2 + [u2]
    ensures ReadEta(t) == Some(Span(a * UnitSeconds(u1) + b * UnitSeconds(u2), UnitSeconds(u2)))
  {
    var rest := [' '] + d2 + [u2];
    TwoPartsShape(d1, u1, d2, u2);
    FirstOfTwoParts(t, d1, u1, rest);
    SecondOfTwoParts(rest, d2, u2);
    ReadEtaOfParts(t, a, UnitSeconds(u1), rest, b, UnitSeconds(u2));
  }

  lemma TwoPartsShape(d1: string, u1: char, d2: string, u2: char)
    ensures d1 + [u1, ' '] + d2 + [u2] == d1 + [u1] + ([' '] + d2 + [u2])
  {
    assert [u1, ' '] == [u1] + [' '];
  }

  lemma FirstOfTwoParts(t: string, d1: string, u1: char, rest: string)
    requires d1 != [] && AllDigits(d1) && UnitSeconds(u1) > 0 && t == d1 + [u1] + rest
    ensures t != Infinity && ReadPart(t) == Some(EtaPart(DigitsValue(d1), UnitSeconds(u1), rest))
  {
    NotInfinity(d1, [u1] + rest);
    assert d1 + ([u1] + rest) == t;
    ReadPartOf(d1, u1, rest);
  }

  lemma SecondOfTwoParts(rest: string, d2: string, u2: char)
    requires d2 != [] && AllDigits(d2) && UnitSeconds(u2) > 0 && rest == [' '] + d2 + [u2]
    ensures rest != [] && rest[0] == ' ' && ReadPart(rest[1..]) == Some(EtaPart(DigitsValue(d2), UnitSeconds(u2), []))
  {
    ReadPartOf(d2, u2, []);
    assert rest[1..] == d2 + [u2] + [];
  }

  lemma ReadEtaOfParts(t: string, a: nat, u: nat, rest: string, b: nat, v: nat)
    requires t != Infinity && ReadPart(t) == Some(EtaPart(a, u, rest))
    requires rest != [] && rest[0] == ' ' && ReadPart(rest[1..]) == Some(EtaPart(b, v, []))
    ensures ReadEta(t) == Some(Span(a * u + b * v, v))
  {
  }

  lemma NotInfinity(d: string, rest: string)
    requires d != [] && AllDigits(d)
    ensures d + rest != Infinity
  {
    var t := d + rest;
    assert t[0] == d[0];
    assert t[0] != Infinity[0];
  }

  /**
   * Reading the displayed ETA back brackets the true ETA to the display's
   * resolution: exact below an hour, to the minute below a day, to the hour above.
   */
  lemma EtaDisplayBrackets(eta: int)
    requires 0 <= eta && eta != EtaInfinite
    ensures Brackets(ReadEta(FormatEta(eta)), eta)
    ensures ReadEta(FormatEta(eta)).value.width == EtaResolution(eta)
  {
    var t := FormatEta(eta);
    if eta < 60 {
      assert t == NatToString(eta) + ['s'];
      ReadOnePart(eta, 's');
    } else if eta < 3600 {
      ReadTwoParts(t, eta / 60, 'm', eta % 60, 's');
    } else if eta < 86400 {
      ReadTwoParts(t, eta / 3600, 'h', (eta % 3600) / 60, 'm');
    } else {
      ReadTwoParts(t, eta / 86400, 'd', (eta % 86400) / 3600, 'h');
    }
  }

  /** The sentinel reads as "no estimate"; every negative ETA is shown as zero seconds. */
  lemma EtaSpecialValues(eta: int)
    ensures FormatEta(EtaInfinite) == Infinity && ReadEta(Infinity) == Some(Forever)
    ensures eta < 0 ==> FormatEta(eta) == "0s" && ReadEta(FormatEta(eta)) == Some(Span(0, 1))
  {
    if eta < 0 {
      assert "0s" == NatToString(0) + ['s'];
      ReadOnePart(0, 's');
    }
  }

  lemma EtaExample()
    ensures FormatEta(90061) == "1d 1h"
  {
    assert 90061 / 86400 == 1 && (90061 % 86400) / 3600 == 1;
    assert NatToString(1) == "1";
  }

  // ====================================================================
  // esc
  // ====================================================================

  predicate IsHtmlSpecial(c: char) {
    c == '&' || c == '<' || c == '>' || c == '"' || c == '\''
  }

  function EscChar(c: char): string {
    if c == '&' then "&amp;"
    else if c == '<' then "&lt;"
    else if c == '>' then "&gt;"
    else if c == '"' then "&quot;"
    else if c == '\'' then "&#39;"
    else [c]
  }

  /** `esc(s)` on a string: each of the five special characters becomes its entity. */
  function Esc(s: string): string {
    if s == [] then [] else EscChar(s[0]) + Esc(s[1..])
  }

  /** `esc(v)` where `null`/`undefined` is `None`: `String(v ?? '')` then escaping. */
  function EscValue(v: Option<string>): (r: string)
    ensures v.None? ==> r == ""
  {
    Esc(v.GetOr(""))
  }

  predicate PrefixAt(t: string, i: int, w: string) {
    0 <= i && i + |w| <= |t| && t[i..i + |w|] == w
  }

  /** One of the five entities `esc` produces starts at index `i`. */
  predicate EntityAt(t: string, i: int) {
    PrefixAt(t, i, "&amp;") || PrefixAt(t, i, "&lt;") || PrefixAt(t, i, "&gt;")
    || PrefixAt(t, i, "&quot;") || PrefixAt(t, i, "&#39;")
  }

  /** Decodes the five entities `esc` produces; every other character stands for itself. */
  function Unescape(t: string): string
    decreases |t|
  {
    if t == [] then []
    else if t[0] != '&' then [t[0]] + Unescape(t[1..])
    else if PrefixAt(t, 0, "&amp;") then ['&'] + Unescape(t[5..])
    else if PrefixAt(t, 0, "&lt;") then ['<'] + Unescape(t[4..])
    else if PrefixAt(t, 0, "&gt;") then ['>'] + Unescape(t[4..])
    else if PrefixAt(t, 0, "&quot;") then ['"'] + Unescape(t[6..])
    else if PrefixAt(t, 0, "&#39;") then ['\''] + Unescape(t[5..])
    else ['&'] + Unescape(t[1..])
  }

  /** The output of `esc` is safe in HTML text and attributes: no `<`, `>`, quote or apostrophe,
      and every `&` opens one of the five entities. */
  predicate HtmlSafe(t: string) {
    forall i :: 0 <= i < |t| ==>
      t[i] != '<' && t[i] != '>' && t[i] != '"' && t[i] != '\'' && (t[i] == '&' ==> EntityAt(t, i))
  }

  lemma EntityAtShift(e: string, r: string, j: int)
    requires EntityAt(r, j)
    ensures EntityAt(e + r, |e| + j)
  {
    var t := e + r;
    forall w: string | PrefixAt(r, j, w) ensures PrefixAt(t, |e| + j, w) {
      assert t[|e| + j..|e| + j + |w|] == r[j..j + |w|];
    }
  }

  lemma {:induction false} EscIsHtmlSafe(s: string)
    ensures HtmlSafe(Esc(s))
  {
    if s != [] {
      var e, r := EscChar(s[0]), Esc(s[1..]);
      EscIsHtmlSafe(s[1..]);
      var t := e + r;
      assert t == Esc(s);
      forall i | 0 <= i < |t|
        ensures t[i] != '<' && t[i] != '>' && t[i] != '"' && t[i] != '\'' && (t[i] == '&' ==> EntityAt(t, i))
      {
        if i < |e| {
          EscCharSafeAt(s[0], r, i);
        } else {
          SafeAfterPrefix(e, r, i);
        }
      }
    }
  }

  lemma SafeAfterPrefix(e: string, r: string, i: int)
    requires HtmlSafe(r) && |e| <= i < |e| + |r|
    ensures var t := e + r;
      t[i] != '<' && t[i] != '>' && t[i] != '"' && t[i] != '\'' && (t[i] == '&' ==> EntityAt(t, i))
  {
    assert (e + r)[i] == r[i - |e|];
    if r[i - |e|] == '&' {
      EntityAtShift(e, r, i - |e|);
    }
  }

  lemma EscCharSafeAt(c: char, r: string, i: int)
    requires 0 <= i < |EscChar(c)|
    ensures var t := EscChar(c) + r;
      t[i] != '<' && t[i] != '>' && t[i] != '"' && t[i] != '\'' && (t[i] == '&' ==> EntityAt(t, i))
  {
    var e := EscChar(c);
    var t := e + r;
    assert t[i] == e[i];
    if i == 0 && IsHtmlSpecial(c) {
      assert t[0..|e|] == e;
      assert PrefixAt(t, 0, e);
    }
  }

  /** `esc` changes nothing in a string without special characters. */
  lemma {:induction false} EscIdentity(s: string)
    requires forall i :: 0 <= i < |s| ==> !IsHtmlSpecial(s[i])
    ensures Esc(s) == s
  {
    if s != [] {
      EscIdentity(s[1..]);
      assert s == [s[0]] + s[1..];
    }
  }

  lemma UnescapeEscChar(c: char, r: string)
    ensures Unescape(EscChar(c) + r) == [c] + Unescape(r)
  {
    var e := EscChar(c);
    var t := e + r;
    if IsHtmlSpecial(c) {
      assert t[0] == '&' && t[1] == e[1];
      assert t[..|e|] == e;
      assert t[|e|..] == r;
      if c == '&' {
        assert PrefixAt(t, 0, "&amp;");
      } else if c == '<' {
        assert !PrefixAt(t, 0, "&amp;") && PrefixAt(t, 0, "&lt;");
      } else if c == '>' {
        assert !PrefixAt(t, 0, "&amp;") && !PrefixAt(t, 0, "&lt;") && PrefixAt(t, 0, "&gt;");
      } else if c == '"' {
        assert !PrefixAt(t, 0, "&amp;") && !PrefixAt(t, 0, "&lt;") && !PrefixAt(t, 0, "&gt;");
        assert PrefixAt(t, 0, "&quot;");
      } else {
        assert !PrefixAt(t, 0, "&amp;") && !PrefixAt(t, 0, "&lt;") && !PrefixAt(t, 0, "&gt;");
        assert !PrefixAt(t, 0, "&quot;") && PrefixAt(t, 0, "&#39;");
      }
    } else {
      assert t[1..] == r;
    }
  }

  /** HTML decoding of the five entities inverts `esc`. */
  lemma {:induction false} EscRoundTrip(s: string)
    ensures Unescape(Esc(s)) == s
  {
    if s != [] {
      UnescapeEscChar(s[0], Esc(s[1..]));
      EscRoundTrip(s[1..]);
      assert s == [s[0]] + s[1..];
    }
  }

  // ====================================================================
  // formatStatus
  // ====================================================================

  /** `s.split(sep)` for a one-character separator: the pieces between separators, at least one. */
  function Split(s: string, sep: char): (ws: seq<string>)
    ensures |ws| >= 1
  {
    if s == [] then [[]]
    else
      var rest := Split(s[1..], sep);
      if s[0] == sep then [[]] + rest else [[s[0]] + rest[0]] + rest[1..]
  }

  /** `ws.join(sep)`. */
  function Join(ws: seq<string>, sep: char): string
    requires |ws| >= 1
  {
    if |ws| == 1 then ws[0] else ws[0] + [sep] + Join(ws[1..], sep)
  }

  /** Joining the pieces of a split with the same separator restores the string. */
  lemma {:induction false} SplitJoin(s: string, sep: char)
    ensures Join(Split(s, sep), sep) == s
  {
    if s != [] {
      var rest := Split(s[1..], sep);
      SplitJoin(s[1..], sep);
      if s[0] == sep {
        assert ([[]] + rest)[1..] == rest;
      } else {
        JoinExtendFirst([s[0]], rest, sep);
      }
      assert s == [s[0]] + s[1..];
    }
  }

  lemma JoinExtendFirst(x: string, ws: seq<string>, sep: char)
    requires |ws| >= 1
    ensures Join([x + ws[0]] + ws[1..], sep) == x + Join(ws, sep)
  {
    var v := [x + ws[0]] + ws[1..];
    if |ws| > 1 {
      assert v[1..] == ws[1..];
    }
  }

  /** `word.charAt(0).toUpperCase() + word.slice(1).toLowerCase()`. */
  function Capitalize(w: string): string {
    if w == [] then [] else [Upper(w[0])] + LowerStr(w[1..])
  }

  function CapitalizeAll(ws: seq<string>): (r: seq<string>)
    ensures |r| == |ws| && forall i :: 0 <= i < |ws| ==> r[i] == Capitalize(ws[i])
  {
    seq(|ws|, i requires 0 <= i < |ws| => Capitalize(ws[i]))
  }

  /** `formatStatus(state)`: "Unknown" for a falsy state, otherwise each `_`-separated word capitalised, joined by spaces. */
  function FormatStatus(state: Option<string>): string {
    if state.None? || state.value == "" then "Unknown"
    else Join(CapitalizeAll(Split(state.value, '_')), ' ')
  }

  /** What `formatStatus` makes of character `i` of a non-empty state. */
  function StatusCharAt(s: string, i: nat): char
    requires i < |s|
  {
    if s[i] == '_' then ' '
    else if i == 0 || s[i - 1] == '_' then Upper(s[i])
    else Lower(s[i])
  }

  /** Character-wise reference: `start` says whether a word begins at the first character. */
  function CaseWords(s: string, start: bool): string {
    if s == [] then []
    else [if s[0] == '_' then ' ' else if start then Upper(s[0]) else Lower(s[0])] + CaseWords(s[1..], s[0] == '_')
  }

  function FirstWord(w: string, start: bool): string {
    if start then Capitalize(w) else LowerStr(w)
  }

  lemma {:induction false} SplitCapitalizeIsCaseWords(s: string, start: bool)
    ensures var ws := Split(s, '_');
      Join([FirstWord(ws[0], start)] + CapitalizeAll(ws[1..]), ' ') == CaseWords(s, start)
  {
    if s != [] {
      SplitCapitalizeIsCaseWords(s[1..], s[0] == '_');
      if s[0] == '_' {
        CaseWordsAfterSeparator(s, start);
      } else {
        CaseWordsInWord(s, start);
      }
    }
  }

  /** The inductive step when `s` starts with a separator: an empty first word, then the words of the rest. */
  lemma CaseWordsAfterSeparator(s: string, start: bool)
    requires s != [] && s[0] == '_'
    requires var w := Split(s[1..], '_');
      Join([FirstWord(w[0], true)] + CapitalizeAll(w[1..]), ' ') == CaseWords(s[1..], true)
    ensures var ws := Split(s, '_');
      Join([FirstWord(ws[0], start)] + CapitalizeAll(ws[1..]), ' ') == CaseWords(s, start)
  {
    var w := Split(s[1..], '_');
    var m := CapitalizeAll(w);
    assert m == [FirstWord(w[0], true)] + CapitalizeAll(w[1..]);
    assert ([FirstWord([], start)] + CapitalizeAll(Split(s, '_')[1..]))[1..] == m;
  }

  /** The inductive step when `s` starts inside a word: its first character joins the rest's first word. */
  lemma CaseWordsInWord(s: string, start: bool)
    requires s != [] && s[0] != '_'
    requires var w := Split(s[1..], '_');
      Join([FirstWord(w[0], false)] + CapitalizeAll(w[1..]), ' ') == CaseWords(s[1..], false)
    ensures var ws := Split(s, '_');
      Join([FirstWord(ws[0], start)] + CapitalizeAll(ws[1..]), ' ') == CaseWords(s, start)
  {
    var w := Split(s[1..], '_');
    var x := if start then Upper(s[0]) else Lower(s[0]);
    assert FirstWord([s[0]] + w[0], start) == [x] + FirstWord(w[0], false);
    JoinExtendFirst([x], [FirstWord(w[0], false)] + CapitalizeAll(w[1..]), ' ');
    assert [FirstWord(Split(s, '_')[0], start)] + CapitalizeAll(Split(s, '_')[1..])
        == [[x] + FirstWord(w[0], false)] + CapitalizeAll(w[1..]);
  }

  lemma {:induction false} CaseWordsAt(s: string, start: bool, i: nat)
    requires i < |s|
    ensures |CaseWords(s, start)| == |s|
    ensures CaseWords(s, start)[i] ==
      if s[i] == '_' then ' ' else if (if i == 0 then start else s[i - 1] == '_') then Upper(s[i]) else Lower(s[i])
  {
    if i > 0 {
      CaseWordsAt(s[1..], s[0] == '_', i - 1);
    } else if |s| > 1 {
      CaseWordsAt(s[1..], s[0] == '_', 0);
    }
  }

  /**
   * `formatStatus` keeps the length, turns every `_` into a space, upper-cases the first
   * letter of each word and lower-cases the rest.
   */
  lemma FormatStatusChars(s: string)
    requires s != ""
    ensures |FormatStatus(Some(s))| == |s|
    ensures forall i :: 0 <= i < |s| ==> FormatStatus(Some(s))[i] == StatusCharAt(s, i)
  {
    FormatStatusIsCaseWords(s);
    var r := CaseWords(s, true);
    CaseWordsAt(s, true, 0);
    forall i | 0 <= i < |s| ensures r[i] == StatusCharAt(s, i) {
      CaseWordsAt(s, true, i);
    }
  }

  lemma FormatStatusIsCaseWords(s: string)
    requires s != ""
    ensures FormatStatus(Some(s)) == CaseWords(s, true)
  {
    var ws := Split(s, '_');
    assert CapitalizeAll(ws) == [FirstWord(ws[0], true)] + CapitalizeAll(ws[1..]);
    SplitCapitalizeIsCaseWords(s, true);
  }

  // ====================================================================
  // getStatusClass
  // ====================================================================

  /**
   * `getStatusClass(state)`: classification of the lower-cased state, in the priority
   * download > seed > pause > error/fault; anything else (and null) is "status-waiting".
   */
  function GetStatusClass(state: Option<string>): (r: string)
    ensures var l := LowerStr(state.GetOr(""));
      && (r == "status-downloading" <==> Includes(l, "download"))
      && (r == "status-seeding" <==> !Includes(l, "download") && Includes(l, "seed"))
      && (r == "status-paused" <==> !Includes(l, "download") && !Includes(l, "seed") && Includes(l, "pause"))
      && (r == "status-error" <==> !Includes(l, "download") && !Includes(l, "seed") && !Includes(l, "pause")
                                   && (Includes(l, "error") || Includes(l, "fault")))
      && (r == "status-waiting" <==> !Includes(l, "download") && !Includes(l, "seed") && !Includes(l, "pause")
                                     && !Includes(l, "error") && !Includes(l, "fault"))
  {
    var l := LowerStr(state.GetOr(""));
    if Includes(l, "download") then "status-downloading"
    else if Includes(l, "seed") then "status-seeding"
    else if Includes(l, "pause") then "status-paused"
    else if Includes(l, "error") || Includes(l, "fault") then "status-error"
    else "status-waiting"
  }

  lemma LowerIdempotent(s: string)
    ensures LowerStr(LowerStr(s)) == LowerStr(s)
  {
  }

  /** The class ignores letter case. */
  lemma StatusClassIgnoresCase(s: string)
    ensures GetStatusClass(Some(s)) == GetStatusClass(Some(LowerStr(s)))
  {
    LowerIdempotent(s);
  }

  // ====================================================================
  // file priority label and checkbox (renderFilesTable)
  // ====================================================================

  /** The checkbox of a file is ticked when its priority is above zero (`undefined > 0` is false). */
  predicate PrioritySelected(priority: Option<int>) {
    priority.Some? && priority.value > 0
  }

  /** The "Priority" cell of a file row. */
  function PriorityLabel(priority: Option<int>): (r: string)
    ensures r == "Normal" <==> PrioritySelected(priority)
    ensures r == "Unknown" <==> priority.None?
    ensures r == "Skip" <==> priority.Some? && priority.value <= 0
  {
    if priority.None? then "Unknown" else if priority.value > 0 then "Normal" else "Skip"
  }
}
