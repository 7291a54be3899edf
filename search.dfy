/**
 * The search side of the browser script: the size parser used for sorting,
 * the "only video" keyword filter and the reshaping of the TorAPI answer
 * into one tagged list.
 */
module Search {
  import opened Common
  import opened Text
  import opened Json

  // ====================================================================
  // parseSizeToBytes
  // ====================================================================

  const Nbsp: char := '\U{00A0}'

  predicate IsNumChar(c: char) {
    IsDigit(c) || c == '.'
  }

  /** End of the run of `[\d.]` characters starting at `i`. */
  function RunEnd(s: string, i: nat): (j: nat)
    requires i <= |s|
    ensures i <= j <= |s|
    ensures forall k :: i <= k < j ==> IsNumChar(s[k])
    ensures j < |s| ==> !IsNumChar(s[j])
    decreases |s| - i
  {
    if i < |s| && IsNumChar(s[i]) then RunEnd(s, i + 1) else i
  }

  /** The power of 1024 named by a unit prefix letter, read case-insensitively. */
  function PrefixExponent(c: char): Option<nat> {
    var u := Upper(c);
    if u == 'K' then Some(1) else if u == 'M' then Some(2) else if u == 'G' then Some(3)
    else if u == 'T' then Some(4) else if u == 'P' then Some(5) else None
  }

  /** `[KMGTP]?B` (case-insensitive) at index `k`, as the power of 1024 it names. */
  function UnitAt(s: string, k: nat): Option<nat> {
    if k + 1 < |s| && PrefixExponent(s[k]).Some? && Upper(s[k + 1]) == 'B' then PrefixExponent(s[k])
    else if k < |s| && Upper(s[k]) == 'B' then Some(0)
    else None
  }

  /** The captures of a match of `([\d.]+)\s*([KMGTP]?B)`: the mantissa text and the unit's power of 1024. */
  datatype SizeMatch = SizeMatch(mantissa: string, exponent: nat)

  /**
   * Leftmost match at or after `i`. At a start position the greedy `[\d.]+` and `\s*`
   * take maximal runs; giving characters back never helps, because the character after
   * a shorter run is a digit, a dot or a space, none of which starts a unit.
   */
  function FindSize(s: string, i: nat): (r: Option<SizeMatch>)
    requires i <= |s|
    ensures r.Some? ==> r.value.mantissa != [] && forall k :: 0 <= k < |r.value.mantissa| ==> IsNumChar(r.value.mantissa[k])
    ensures r.Some? ==> r.value.exponent <= 5
    decreases |s| - i
  {
    if i == |s| then None
    else if IsNumChar(s[i]) && UnitAt(s, SpaceRunEnd(s, RunEnd(s, i))).Some? then
      Some(SizeMatch(s[i..RunEnd(s, i)], UnitAt(s, SpaceRunEnd(s, RunEnd(s, i))).value))
    else FindSize(s, i + 1)
  }

  function Pow10(n: nat): (r: nat)
    ensures r >= 1
  {
    if n == 0 then 1 else 10 * Pow10(n - 1)
  }

  function Pow1024(e: nat): (r: nat)
    ensures r >= 1
  {
    if e == 0 then 1 else 1024 * Pow1024(e - 1)
  }

  /** Index of the first '.' in `m`, or |m|. */
  function DotIndex(m: string): (p: nat)
    ensures p <= |m| && (p < |m| ==> m[p] == '.') && forall k :: 0 <= k < p ==> m[k] != '.'
  {
    if m == [] || m[0] == '.' then 0 else 1 + DotIndex(m[1..])
  }

  /**
   * `Number(m)` for a string of digits and dots: a decimal with at most one dot and at
   * least one digit; anything else is NaN (`None`). The value is exact: binary
   * floating-point rounding is not modelled.
   */
  function NumberValue(m: string): (r: Option<real>)
    requires forall k :: 0 <= k < |m| ==> IsNumChar(m[k])
    ensures r.Some? ==> r.value >= 0.0
  {
    var p := DotIndex(m);
    var whole, frac := m[..p], if p < |m| then m[p + 1..] else [];
    if !AllDigits(whole) || !AllDigits(frac) || |whole| + |frac| == 0 then None
    else Some(DigitsValue(whole) as real + DigitsValue(frac) as real / Pow10(|frac|) as real)
  }

  /** `Math.round(x)`: the nearest integer, halves rounded up. */
  function Round(x: real): (r: int)
    ensures x >= 0.0 ==> r >= 0
  {
    (x + 0.5).Floor
  }

  /** The mantissa times the unit's multiplier. */
  function Scaled(v: real, e: nat): (r: real)
    requires v >= 0.0
    ensures r >= 0.0
  {
    MulNonNegative(v, Pow1024(e) as real);
    v * Pow1024(e) as real
  }

  lemma MulNonNegative(a: real, b: real)
    requires a >= 0.0 && b >= 0.0
    ensures a * b >= 0.0
  {
  }

  /** `String(v)` for the size field; non-string values are read as the empty string. */
  function SizeText(v: Value): string {
    if v.Str? then v.s else ""
  }

  /** The string the regular expression is run on: NBSPs to spaces, the first comma to a dot, trimmed. */
  function NormalizeSize(s: string): string {
    Trim(ReplaceFirst(ReplaceAll(s, Nbsp, ' '), ',', '.'))
  }

  /** `parseSizeToBytes(sizeStr)`: 0 for a falsy value, no match or NaN; otherwise mantissa times 1024^k, rounded. */
  function ParseSizeToBytes(v: Option<Value>): (r: int)
    ensures r >= 0
    ensures !TruthyOpt(v) ==> r == 0
  {
    if !TruthyOpt(v) then 0
    else match FindSize(NormalizeSize(SizeText(v.value)), 0)
      case None => 0
      case Some(m) => Round(Scaled(NumberValue(m.mantissa).GetOr(0.0), m.exponent))
  }

  /** The unit names as the size strings write them, in upper or lower case. */
  function UnitName(e: nat, lower: bool): string
    requires e <= 5
  {
    var u := ["B", "KB", "MB", "GB", "TB", "PB"][e];
    if lower then LowerStr(u) else u
  }

  lemma UnitTable()
    ensures Pow1024(0) == 1 && Pow1024(1) == 1024 && Pow1024(2) == 1048576
    ensures Pow1024(3) == 1073741824 && Pow1024(4) == 1099511627776 && Pow1024(5) == 1125899906842624
  {
  }

  lemma UnitNameRead(s: string, k: nat, e: nat, lower: bool)
    requires e <= 5 && k + |UnitName(e, lower)| == |s| && s[k..] == UnitName(e, lower)
    ensures UnitAt(s, k) == Some(e)
  {
    assert s[k] == UnitName(e, lower)[0];
    if e > 0 {
      assert s[k + 1] == UnitName(e, lower)[1];
    }
  }

  lemma RunEndAt(s: string, i: nat, j: nat)
    requires i <= j <= |s|
    requires forall k :: i <= k < j ==> IsNumChar(s[k])
    requires j < |s| ==> !IsNumChar(s[j])
    ensures RunEnd(s, i) == j
  {
  }

  lemma SpaceEndAt(s: string, i: nat, j: nat)
    requires i <= j <= |s|
    requires forall k :: i <= k < j ==> IsSpace(s[k])
    requires j < |s| ==> !IsSpace(s[j])
    ensures SpaceRunEnd(s, i) == j
  {
  }

  lemma NormalizeKeeps(s: string)
    requires s != [] && IsDigit(s[0]) && !IsSpace(s[|s| - 1])
    requires forall k :: 0 <= k < |s| ==> s[k] != Nbsp && s[k] != ','
    ensures NormalizeSize(s) == s
  {
    ReplaceAllKeeps(s);
    ReplaceFirstKeeps(s);
    assert !IsSpace(s[0]);
  }

  lemma ReplaceAllKeeps(s: string)
    requires forall k :: 0 <= k < |s| ==> s[k] != Nbsp
    ensures ReplaceAll(s, Nbsp, ' ') == s
  {
  }

  lemma ReplaceFirstKeeps(s: string)
    requires forall k :: 0 <= k < |s| ==> s[k] != ','
    ensures ReplaceFirst(s, ',', '.') == s
  {
    assert ',' !in s;
  }

  /** The text `String(n) + " " + unit`, as the search results write sizes. */
  function SizeString(n: nat, e: nat, lower: bool): string
    requires e <= 5
  {
    NatToString(n) + " " + UnitName(e, lower)
  }

  lemma UnitNameFacts(e: nat, lower: bool)
    requires e <= 5
    ensures var u := UnitName(e, lower);
      u != [] && !IsSpace(u[0]) && !IsSpace(u[|u| - 1])
      && forall k :: 0 <= k < |u| ==> u[k] != Nbsp && u[k] != ','
  {
  }

  /** A digit string, one space and a unit name are matched as mantissa and unit. */
  lemma FindSizeOfParts(s: string, d: string, u: string, e: nat)
    requires d != [] && AllDigits(d) && u != [] && !IsSpace(u[0])
    requires s == d + " " + u
    requires UnitAt(s, |d| + 1) == Some(e)
    ensures FindSize(s, 0) == Some(SizeMatch(d, e))
  {
    assert s[..|d|] == d;
    assert s[|d|] == ' ' && s[|d| + 1] == u[0];
    RunEndAt(s, 0, |d|);
    SpaceEndAt(s, |d|, |d| + 1);
  }

  /** A digit string reads as its integer value. */
  lemma NumberOfDigits(d: string)
    requires d != [] && AllDigits(d)
    ensures NumberValue(d) == Some(DigitsValue(d) as real)
  {
    assert DotIndex(d) == |d|;
    assert d[..|d|] == d;
    assert DigitsValue([]) == 0;
  }

  lemma RoundWhole(n: nat, p: nat)
    ensures Round(Scaled(n as real, p)) == n * Pow1024(p)
  {
    var m := n * Pow1024(p);
    assert n as real * Pow1024(p) as real == m as real;
    assert Scaled(n as real, p) == m as real;
    assert m as real <= m as real + 0.5 < (m + 1) as real;
  }

  /** The text is already in normal form, so the match sees it whole. */
  lemma SizeStringMatch(s: string, n: nat, e: nat, lower: bool)
    requires e <= 5 && s == SizeString(n, e, lower)
    ensures NormalizeSize(s) == s
    ensures FindSize(s, 0) == Some(SizeMatch(NatToString(n), e))
  {
    var d, u := NatToString(n), UnitName(e, lower);
    UnitNameFacts(e, lower);
    SizeStringPlain(s, d, u);
    SizeTextMatch(s, d, u, e, lower);
  }

  lemma SizeTextMatch(s: string, d: string, u: string, e: nat, lower: bool)
    requires e <= 5 && u == UnitName(e, lower) && s == d + " " + u
    requires d != [] && AllDigits(d) && u != [] && !IsSpace(u[0])
    requires s != [] && IsDigit(s[0]) && !IsSpace(s[|s| - 1])
    requires forall k :: 0 <= k < |s| ==> s[k] != Nbsp && s[k] != ','
    ensures NormalizeSize(s) == s
    ensures FindSize(s, 0) == Some(SizeMatch(d, e))
  {
    NormalizeKeeps(s);
    assert s[|d| + 1..] == u;
    UnitNameRead(s, |d| + 1, e, lower);
    FindSizeOfParts(s, d, u, e);
  }

  lemma SizeStringPlain(s: string, d: string, u: string)
    requires d != [] && AllDigits(d) && u != [] && !IsSpace(u[|u| - 1])
    requires forall k :: 0 <= k < |u| ==> u[k] != Nbsp && u[k] != ','
    requires s == d + " " + u
    ensures s != [] && IsDigit(s[0]) && !IsSpace(s[|s| - 1])
    ensures forall k :: 0 <= k < |s| ==> s[k] != Nbsp && s[k] != ','
  {
    assert s[0] == d[0];
    assert s[|s| - 1] == u[|u| - 1];
    forall k | 0 <= k < |s| ensures s[k] != Nbsp && s[k] != ',' {
      if k < |d| {
        assert s[k] == d[k];
      } else if k > |d| {
        assert s[k] == u[k - |d| - 1];
      }
    }
  }

  /** Reading `String(n) + " " + unit` gives `n` times the unit's multiplier, whatever the unit's case. */
  lemma SizeRoundTrip(n: nat, e: nat, lower: bool)
    requires e <= 5
    ensures ParseSizeToBytes(Some(Str(SizeString(n, e, lower)))) == n * Pow1024(e)
  {
    var s, d := SizeString(n, e, lower), NatToString(n);
    SizeStringMatch(s, n, e, lower);
    ParseOfMatch(Some(Str(s)), SizeMatch(d, e));
    NumberOfDigits(d);
    NatToStringValue(n);
    assert NumberValue(d).GetOr(0.0) == n as real;
    RoundWhole(n, e);
  }

  lemma ParseOfMatch(v: Option<Value>, m: SizeMatch)
    requires TruthyOpt(v) && FindSize(NormalizeSize(SizeText(v.value)), 0) == Some(m)
    ensures m.mantissa != [] && forall k :: 0 <= k < |m.mantissa| ==> IsNumChar(m.mantissa[k])
    ensures ParseSizeToBytes(v) == Round(Scaled(NumberValue(m.mantissa).GetOr(0.0), m.exponent))
  {
  }

  /** No `B` or `b` in the text: the unit of `[KMGTP]?B` cannot match anywhere. */
  predicate NoUnitLetter(s: string) {
    forall k :: 0 <= k < |s| ==> Upper(s[k]) != 'B'
  }

  lemma {:induction false} NoUnitNoMatch(s: string, i: nat)
    requires i <= |s| && NoUnitLetter(s)
    ensures FindSize(s, i) == None
    decreases |s| - i
  {
    if i < |s| {
      var k := SpaceRunEnd(s, RunEnd(s, i));
      assert k < |s| ==> Upper(s[k]) != 'B';
      assert k + 1 < |s| ==> Upper(s[k + 1]) != 'B';
      assert UnitAt(s, k) == None;
      NoUnitNoMatch(s, i + 1);
    }
  }

  /** Normalising turns characters into spaces and dots only, and trimming keeps a slice. */
  lemma NormalizeNoUnit(s: string)
    requires NoUnitLetter(s)
    ensures NoUnitLetter(NormalizeSize(s))
  {
    var a := ReplaceAll(s, Nbsp, ' ');
    ReplacedNoUnit(s, a, ' ');
    var b := ReplaceFirst(a, ',', '.');
    ReplacedNoUnit(a, b, '.');
    var lo := SpaceRunEnd(b, 0);
    var hi := SpaceRunStart(b, lo, |b|);
    SliceNoUnit(b, lo, hi);
  }

  lemma ReplacedNoUnit(s: string, t: string, c: char)
    requires NoUnitLetter(s) && Upper(c) != 'B'
    requires |t| == |s| && forall k :: 0 <= k < |s| ==> t[k] == s[k] || t[k] == c
    ensures NoUnitLetter(t)
  {
    forall k | 0 <= k < |t| ensures Upper(t[k]) != 'B' {
      assert t[k] == s[k] || t[k] == c;
    }
  }

  lemma SliceNoUnit(s: string, lo: nat, hi: nat)
    requires NoUnitLetter(s) && lo <= hi <= |s|
    ensures NoUnitLetter(s[lo..hi])
  {
    forall k | 0 <= k < hi - lo ensures Upper(s[lo..hi][k]) != 'B' {
      assert s[lo..hi][k] == s[lo + k];
    }
  }

  /** A truthy size text without the letter B has no match, and `if (!m) return 0` gives 0. */
  lemma NoUnitIsZero(v: Option<Value>)
    requires TruthyOpt(v) && NoUnitLetter(SizeText(v.value))
    ensures ParseSizeToBytes(v) == 0
  {
    NormalizeNoUnit(SizeText(v.value));
    NoUnitNoMatch(NormalizeSize(SizeText(v.value)), 0);
  }

  lemma SizeFalsy()
    ensures ParseSizeToBytes(None) == 0 && ParseSizeToBytes(Some(Null)) == 0 && ParseSizeToBytes(Some(Str(""))) == 0
  {
  }

  // ====================================================================
  // isProbablyVideo
  // ====================================================================

  /** The exclusion list as the source writes it, capitals included. */
  const NonVideo: seq<string> := [
    "\U{0441}\U{0430}\U{0443}\U{043D}\U{0434}\U{0442}\U{0440}\U{0435}\U{043A}", "soundtrack", "mp3", "flac", "aac", "music",
    "\U{0430}\U{0443}\U{0434}\U{0438}\U{043E}\U{043A}\U{043D}\U{0438}\U{0433}\U{0430}", "audiobook", "pdf", "djvu", "xbox",
    "software", "linux", "macos", "RePack", "amd64", "Portable", "DLCs"]

  const VideoHints: seq<string> := [
    "hdrip", "bdrip", "bluray", "web-dl", "webrip", "dvdrip", "hdtv", "uhd", "4k", "1080", "720",
    "x264", "x265", "hevc", "avc", "remux", "imaxi", "imax", "dts", "ac3"]

  /** `String(item[key] || '')`; non-string values are read as the empty string. */
  function Field(item: Value, key: string): string {
    match Get(item, key)
    case Some(Str(s)) => s
    case _ => ""
  }

  /** `cat + ' ' + name` with both parts lower-cased. */
  function ItemText(item: Value): string {
    LowerStr(Field(item, "Category")) + " " + LowerStr(Field(item, "Name"))
  }

  predicate AnyIncluded(text: string, words: seq<string>) {
    exists k :: 0 <= k < |words| && Includes(text, words[k])
  }

  /** `isProbablyVideo(item)` as written; the video hints decide nothing, since both outcomes after them are true. */
  function IsProbablyVideo(item: Value): (r: bool)
    ensures r <==> !AnyIncluded(ItemText(item), NonVideo)
  {
    var text := ItemText(item);
    if AnyIncluded(text, NonVideo) then false
    else if AnyIncluded(text, VideoHints) then true
    else true
  }

  lemma ItemTextIsLowered(item: Value)
    ensures ItemText(item) == LowerStr(Field(item, "Category") + " " + Field(item, "Name"))
  {
  }

  /** The three exclusion entries with capitals can never occur in the lower-cased text. */
  lemma CapitalEntriesNeverMatch(item: Value)
    ensures NonVideo[14] == "RePack" && !Includes(ItemText(item), NonVideo[14])
    ensures NonVideo[16] == "Portable" && !Includes(ItemText(item), NonVideo[16])
    ensures NonVideo[17] == "DLCs" && !Includes(ItemText(item), NonVideo[17])
  {
    ItemTextIsLowered(item);
    var src := Field(item, "Category") + " " + Field(item, "Name");
    NoCapitalInLowered(src, "RePack", 0);
    NoCapitalInLowered(src, "Portable", 0);
    NoCapitalInLowered(src, "DLCs", 0);
  }

  /** The exclusion list with every entry lower-cased, so that each entry can match. */
  const NonVideoFolded: seq<string> := [
    "\U{0441}\U{0430}\U{0443}\U{043D}\U{0434}\U{0442}\U{0440}\U{0435}\U{043A}", "soundtrack", "mp3", "flac", "aac", "music",
    "\U{0430}\U{0443}\U{0434}\U{0438}\U{043E}\U{043A}\U{043D}\U{0438}\U{0433}\U{0430}", "audiobook", "pdf", "djvu", "xbox",
    "software", "linux", "macos", "repack", "amd64", "portable", "dlcs"]

  /**
   * The keyword filter with the exclusion entries compared case-insensitively: an item
   * passes when no lower-cased entry of the source's list occurs in its text, and the
   * correction only ever rejects more than the filter as written.
   */
  function IsProbablyVideoFolded(item: Value): (r: bool)
    ensures r <==> forall k :: 0 <= k < |NonVideo| ==> !Includes(ItemText(item), LowerStr(NonVideo[k]))
    ensures r ==> IsProbablyVideo(item)
  {
    FoldedListIsLowerCase();
    FoldedRejectsMore(item);
    !AnyIncluded(ItemText(item), NonVideoFolded)
  }

  /** Every entry that can match as written is its own lower-cased form, so the folded list rejects it too. */
  lemma FoldedRejectsMore(item: Value)
    ensures AnyIncluded(ItemText(item), NonVideo) ==> AnyIncluded(ItemText(item), NonVideoFolded)
  {
    var text := ItemText(item);
    if AnyIncluded(text, NonVideo) {
      var k :| 0 <= k < |NonVideo| && Includes(text, NonVideo[k]);
      CapitalEntriesNeverMatch(item);
      assert k != 14 && k != 16 && k != 17;
      assert NonVideoFolded[k] == NonVideo[k];
    }
  }

  lemma FoldedListIsLowerCase()
    ensures |NonVideoFolded| == |NonVideo|
    ensures forall k :: 0 <= k < |NonVideo| ==> NonVideoFolded[k] == LowerStr(NonVideo[k])
  {
  }

  lemma IncludesWhole(a: string, w: string)
    ensures Includes(a + w, w)
  {
    assert (a + w)[|a|..|a| + |w|] == w;
    assert OccursAt(a + w, w, |a|);
  }

  /**
   * With the folded list, a name that contains any exclusion entry, in any letter case,
   * rejects the item.
   */
  lemma FoldedEntriesReject(item: Value, k: nat)
    requires k < |NonVideo|
    requires Includes(LowerStr(Field(item, "Name")), LowerStr(NonVideo[k]))
    ensures !IsProbablyVideoFolded(item)
  {
    FoldedListIsLowerCase();
    IncludesInConcat(LowerStr(Field(item, "Category")) + " ", LowerStr(Field(item, "Name")), NonVideoFolded[k]);
  }

  /** A word holding a character the text lacks does not occur in it. */
  lemma MissingCharExcludes(s: string, w: string, j: nat)
    requires j < |w| && w[j] !in s
    ensures !Includes(s, w)
  {
    forall i | 0 <= i <= |s| - |w|
      ensures !OccursAt(s, w, i)
    {
      assert s[i..i + |w|][j] == s[i + j];
    }
  }

  /** An item named "DLCs" passes the filter as written and is rejected by the folded one. */
  lemma DlcsPassesAsWritten()
    ensures IsProbablyVideo(Obj([("Name", Str("DLCs"))]))
    ensures !IsProbablyVideoFolded(Obj([("Name", Str("DLCs"))]))
  {
    var item := Obj([("Name", Str("DLCs"))]);
    var text := ItemText(item);
    assert text == " dlcs";
    forall k | 0 <= k < |NonVideo| ensures !Includes(text, NonVideo[k]) {
      var w := NonVideo[k];
      if k == 17 {
        CapitalEntriesNeverMatch(item);
      } else if |w| > |text| {
      } else if w[0] !in text {
        MissingCharExcludes(text, w, 0);
      } else {
        MissingCharExcludes(text, w, 1);
      }
    }
    IncludesWhole(" ", "dlcs");
    assert text == " " + "dlcs" && NonVideoFolded[17] == "dlcs";
  }

  // ====================================================================
  // flattenTorApiResponse
  // ====================================================================

  /** The provider-keyed object of the answer: `raw.data` when it has a RuTracker key, else a truthy `raw.data.data`. */
  function SelectData(raw: Value): (r: Option<Value>)
    ensures r.Some? ==> Truthy(r.value)
  {
    var d := Get(raw, "data");
    if Truthy(raw) && TruthyOpt(d) && GetOpt(d, "RuTracker").Some? then d
    else if Truthy(raw) && TruthyOpt(d) && TruthyOpt(GetOpt(d, "data")) then GetOpt(d, "data")
    else None
  }

  /** `{ provider, ...item }`: the provider first, then the item's own entries; an own "provider" entry wins. */
  function WithProvider(provider: string, item: Value): Value {
    var es := SpreadEntries(item);
    match Lookup(es, "provider")
    case Some(own) => Obj([("provider", own)] + Without(es, "provider"))
    case None => Obj([("provider", Str(provider))] + es)
  }

  /** The (provider, item) pairs one entry contributes: one per element when the value is an array, none otherwise. */
  function EntryPairs(e: (string, Value)): (r: seq<(string, Value)>)
    ensures e.1.Arr? ==> |r| == |e.1.items| && forall m :: 0 <= m < |r| ==> r[m] == (e.0, e.1.items[m])
    ensures !e.1.Arr? ==> r == []
  {
    if e.1.Arr? then seq(|e.1.items|, m requires 0 <= m < |e.1.items| => (e.0, e.1.items[m])) else []
  }

  /** All pairs, provider by provider in entry order, items in array order. */
  function Pairs(es: seq<(string, Value)>): seq<(string, Value)> {
    if es == [] then [] else Pairs(es[..|es| - 1]) + EntryPairs(es[|es| - 1])
  }

  function TagAll(ps: seq<(string, Value)>): (r: seq<Value>)
    ensures |r| == |ps|
  {
    seq(|ps|, k requires 0 <= k < |ps| => WithProvider(ps[k].0, ps[k].1))
  }

  /** What `flattenTorApiResponse(raw)` returns. */
  function Flatten(raw: Value): seq<Value> {
    var data := SelectData(raw);
    if data.None? || !IsObjectLike(data.value) then [] else TagAll(Pairs(Entries(data.value)))
  }

  /** `flattenTorApiResponse(raw)`: the nested loops push one tagged item per array element. */
  method FlattenTorApiResponse(raw: Value) returns (out: seq<Value>)
    ensures out == Flatten(raw)
  {
    var data := SelectData(raw);
    if data.None? || !IsObjectLike(data.value) {
      return [];
    }
    var es := Entries(data.value);
    out := [];
    for i := 0 to |es|
      invariant out == TagAll(Pairs(es[..i]))
    {
      var provider, val := es[i].0, es[i].1;
      ghost var done, ps := Pairs(es[..i]), EntryPairs(es[i]);
      PairsSnoc(es, i);
      if val.Arr? {
        for j := 0 to |val.items|
          invariant out == TagAll(done + ps[..j])
        {
          PushPair(done, ps, j);
          out := out + [WithProvider(provider, val.items[j])];
        }
        assert ps[..|ps|] == ps;
      } else {
        assert done + ps == done;
      }
    }
    assert es[..|es|] == es;
  }

  lemma PairsSnoc(es: seq<(string, Value)>, i: nat)
    requires i < |es|
    ensures Pairs(es[..i + 1]) == Pairs(es[..i]) + EntryPairs(es[i])
  {
    assert es[..i + 1][..i] == es[..i];
  }

  lemma PushPair(done: seq<(string, Value)>, ps: seq<(string, Value)>, j: nat)
    requires j < |ps|
    ensures TagAll(done + ps[..j + 1]) == TagAll(done + ps[..j]) + [WithProvider(ps[j].0, ps[j].1)]
  {
    assert done + ps[..j + 1] == (done + ps[..j]) + [ps[j]];
  }

  function ArrayLengths(es: seq<(string, Value)>): nat {
    if es == [] then 0 else ArrayLengths(es[..|es| - 1]) + (if es[|es| - 1].1.Arr? then |es[|es| - 1].1.items| else 0)
  }

  /** One output item per element of an array-valued provider. */
  lemma {:induction false} PairsCount(es: seq<(string, Value)>)
    ensures |Pairs(es)| == ArrayLengths(es)
  {
    if es != [] {
      PairsCount(es[..|es| - 1]);
    }
  }

  /** Output order: the items of earlier entries come first. */
  lemma {:induction false} PairsAppend(a: seq<(string, Value)>, b: seq<(string, Value)>)
    ensures Pairs(a + b) == Pairs(a) + Pairs(b)
    decreases |b|
  {
    if b != [] {
      var b' := b[..|b| - 1];
      assert (a + b)[..|a + b| - 1] == a + b';
      PairsAppend(a, b');
    } else {
      assert a + b == a;
    }
  }

  function OnlyArrays(es: seq<(string, Value)>): seq<(string, Value)> {
    if es == [] then []
    else OnlyArrays(es[..|es| - 1]) + (if es[|es| - 1].1.Arr? then [es[|es| - 1]] else [])
  }

  /** Entries whose value is not an array contribute nothing. */
  lemma {:induction false} NonArraysSkipped(es: seq<(string, Value)>)
    ensures Pairs(OnlyArrays(es)) == Pairs(es)
  {
    if es != [] {
      var init, last := es[..|es| - 1], es[|es| - 1];
      NonArraysSkipped(init);
      if last.1.Arr? {
        PairsAppend(OnlyArrays(init), [last]);
        assert Pairs([last]) == Pairs([]) + EntryPairs(last);
      } else {
        assert OnlyArrays(es) == OnlyArrays(init);
      }
    }
  }

  /** Every pair names the key of an array-valued entry that holds its item. */
  lemma {:induction false} PairsProvenance(es: seq<(string, Value)>, k: nat)
    requires k < |Pairs(es)|
    ensures exists e :: 0 <= e < |es| && es[e].0 == Pairs(es)[k].0 && es[e].1.Arr? && Pairs(es)[k].1 in es[e].1.items
  {
    var init := es[..|es| - 1];
    var n := |Pairs(init)|;
    if k < n {
      PairsProvenance(init, k);
      var e :| 0 <= e < |init| && init[e].0 == Pairs(init)[k].0 && init[e].1.Arr? && Pairs(init)[k].1 in init[e].1.items;
      assert es[e] == init[e];
    } else {
      var last := es[|es| - 1];
      assert Pairs(es)[k] == EntryPairs(last)[k - n];
      assert last.1.items[k - n] in last.1.items;
    }
  }

  /** The "provider" property of an output item: its provider key, unless the item brings its own. */
  lemma ProviderProperty(provider: string, item: Value)
    ensures Get(WithProvider(provider, item), "provider") ==
      if Lookup(SpreadEntries(item), "provider").Some? then Lookup(SpreadEntries(item), "provider") else Some(Str(provider))
  {
  }

  /** Without a usable data object the result is empty. */
  lemma FlattenWithoutData(raw: Value)
    requires SelectData(raw).None? || !IsObjectLike(SelectData(raw).value)
    ensures Flatten(raw) == []
  {
  }

  /** A provider-keyed object flattens to one tagged item per array element, in entry then element order. */
  lemma FlattenShape(raw: Value)
    requires SelectData(raw).Some? && IsObjectLike(SelectData(raw).value)
    ensures var es := Entries(SelectData(raw).value);
      |Flatten(raw)| == ArrayLengths(es)
      && forall k :: 0 <= k < |Flatten(raw)| ==> Flatten(raw)[k] == WithProvider(Pairs(es)[k].0, Pairs(es)[k].1)
  {
    PairsCount(Entries(SelectData(raw).value));
  }

  // ====================================================================
  // the size sort of the search results
  // ====================================================================

  /** A result with the byte count the script stores in its `__bytes` property. */
  datatype Row = Row(item: Value, bytes: int)

  /** The items with their parsed sizes, as `items.forEach(x => x.__bytes = parseSizeToBytes(x.Size))` leaves them. */
  function SizedRows(items: seq<Value>): (r: seq<Row>)
    ensures |r| == |items|
  {
    seq(|items|, i requires 0 <= i < |items| => Row(items[i], SizeOf(items[i])))
  }

  /** `parseSizeToBytes(x.Size)`. */
  function SizeOf(item: Value): (r: int)
    ensures r >= 0
  {
    ParseSizeToBytes(Get(item, "Size"))
  }

  /**
   * Where a row goes in a list ordered largest first: scanning from the end, after the
   * last row whose size is at least its own, so that rows of equal size keep their order.
   */
  function InsertionPoint(t: seq<Row>, x: Row): (j: nat)
    ensures j <= |t|
    ensures forall k :: j <= k < |t| ==> t[k].bytes < x.bytes
    ensures j > 0 ==> t[j - 1].bytes >= x.bytes
  {
    if t == [] || t[|t| - 1].bytes >= x.bytes then |t| else InsertionPoint(t[..|t| - 1], x)
  }

  /** The two properties above determine the insertion point. */
  lemma InsertionPointUnique(t: seq<Row>, x: Row, j: nat)
    requires j <= |t|
    requires forall k :: j <= k < |t| ==> t[k].bytes < x.bytes
    requires j > 0 ==> t[j - 1].bytes >= x.bytes
    ensures InsertionPoint(t, x) == j
  {
  }

  function Insert(t: seq<Row>, x: Row): (r: seq<Row>)
    ensures |r| == |t| + 1
  {
    var j := InsertionPoint(t, x);
    t[..j] + [x] + t[j..]
  }

  /** The stable sort by size, largest first, that `items.sort((a, b) => b.__bytes - a.__bytes)` performs. */
  function SortedDesc(s: seq<Row>): (r: seq<Row>)
    ensures |r| == |s|
  {
    if s == [] then [] else Insert(SortedDesc(s[..|s| - 1]), s[|s| - 1])
  }

  predicate IsSortedDesc(s: seq<Row>) {
    forall i, j :: 0 <= i < j < |s| ==> s[i].bytes >= s[j].bytes
  }

  lemma InsertPermutes(t: seq<Row>, x: Row)
    ensures multiset(Insert(t, x)) == multiset(t) + multiset{x}
  {
    var j := InsertionPoint(t, x);
    assert t == t[..j] + t[j..];
  }

  lemma InsertSorted(t: seq<Row>, x: Row)
    requires IsSortedDesc(t)
    ensures IsSortedDesc(Insert(t, x))
  {
    SpliceSorted(t, x, InsertionPoint(t, x));
  }

  /** Placing `x` after the rows at least as large and before the smaller ones keeps the order. */
  lemma SpliceSorted(t: seq<Row>, x: Row, j: nat)
    requires IsSortedDesc(t) && j <= |t|
    requires forall k :: j <= k < |t| ==> t[k].bytes < x.bytes
    requires j > 0 ==> t[j - 1].bytes >= x.bytes
    ensures IsSortedDesc(t[..j] + [x] + t[j..])
  {
    var r := t[..j] + [x] + t[j..];
    forall a, c | 0 <= a < c < |r| ensures r[a].bytes >= r[c].bytes {
      if c < j {
        assert r[a] == t[a] && r[c] == t[c];
      } else if a < j {
        assert r[a] == t[a];
        if c > j {
          assert r[c] == t[c - 1];
        }
      } else if a == j {
        assert r[c] == t[c - 1];
      } else {
        assert r[a] == t[a - 1] && r[c] == t[c - 1];
      }
    }
  }

  /** The result is ordered by size, largest first, and is a permutation of the input. */
  lemma {:induction false} SortedDescIsSortedPermutation(s: seq<Row>)
    ensures IsSortedDesc(SortedDesc(s))
    ensures multiset(SortedDesc(s)) == multiset(s)
  {
    if s != [] {
      var init, last := s[..|s| - 1], s[|s| - 1];
      SortedDescIsSortedPermutation(init);
      InsertSorted(SortedDesc(init), last);
      InsertPermutes(SortedDesc(init), last);
      assert s == init + [last];
    }
  }

  /** The rows of one size, in order. */
  function OfSize(s: seq<Row>, b: int): seq<Row> {
    if s == [] then [] else OfSize(s[..|s| - 1], b) + (if s[|s| - 1].bytes == b then [s[|s| - 1]] else [])
  }

  lemma {:induction false} OfSizeAppend(a: seq<Row>, c: seq<Row>, b: int)
    ensures OfSize(a + c, b) == OfSize(a, b) + OfSize(c, b)
    decreases |c|
  {
    if c != [] {
      assert (a + c)[..|a + c| - 1] == a + c[..|c| - 1];
      OfSizeAppend(a, c[..|c| - 1], b);
    } else {
      assert a + c == a;
    }
  }

  lemma {:induction false} OfSizeAbsent(s: seq<Row>, b: int)
    requires forall k :: 0 <= k < |s| ==> s[k].bytes < b
    ensures OfSize(s, b) == []
  {
    if s != [] {
      OfSizeAbsent(s[..|s| - 1], b);
    }
  }

  lemma InsertStable(t: seq<Row>, x: Row, b: int)
    ensures OfSize(Insert(t, x), b) == OfSize(t, b) + (if x.bytes == b then [x] else [])
  {
    var j := InsertionPoint(t, x);
    assert t[..j] + t[j..] == t;
    OfSizeSplice(t[..j], x, t[j..], b);
  }

  lemma OfSizeSplice(front: seq<Row>, x: Row, back: seq<Row>, b: int)
    requires forall k :: 0 <= k < |back| ==> back[k].bytes < x.bytes
    ensures OfSize(front + [x] + back, b) == OfSize(front + back, b) + (if x.bytes == b then [x] else [])
  {
    var mid := if x.bytes == b then [x] else [];
    OfSizeAppend(front + [x], back, b);
    OfSizeAppend(front, [x], b);
    assert OfSize([x], b) == OfSize([], b) + mid;
    OfSizeAppend(front, back, b);
    if x.bytes == b {
      OfSizeAbsent(back, b);
    }
  }

  /** Stability: rows of equal size keep their original relative order. */
  lemma {:induction false} SortedDescIsStable(s: seq<Row>, b: int)
    ensures OfSize(SortedDesc(s), b) == OfSize(s, b)
  {
    if s != [] {
      SortedDescIsStable(s[..|s| - 1], b);
      InsertStable(SortedDesc(s[..|s| - 1]), s[|s| - 1], b);
    }
  }

  /** `items.sort((a, b) => b.__bytes - a.__bytes)` as an in-place insertion sort. */
  method SortBySize(a: array<Row>)
    modifies a
    ensures a[..] == SortedDesc(old(a[..]))
  {
    ghost var s := a[..];
    for i := 0 to a.Length
      invariant a[..i] == SortedDesc(s[..i])
      invariant a[i..] == s[i..]
    {
      ghost var t := a[..i];
      InsertLast(a, i);
      InsertStep(s, i, t, s[i], a[..i + 1]);
    }
    assert s[..a.Length] == s;
  }

  /** One insertion pass: `a[i]` moves left past the smaller rows before it. */
  method InsertLast(a: array<Row>, i: nat)
    requires i < a.Length
    modifies a
    ensures a[..i + 1] == Insert(old(a[..i]), old(a[i]))
    ensures a[i + 1..] == old(a[i + 1..])
  {
    ghost var t := a[..i];
    var x := a[i];
    var j := i;
    while j > 0 && a[j - 1].bytes < x.bytes
      invariant 0 <= j <= i
      invariant forall k :: 0 <= k < j ==> a[k] == t[k]
      invariant forall k :: j < k <= i ==> a[k] == t[k - 1]
      invariant forall k :: i < k < a.Length ==> a[k] == old(a[k])
      invariant forall k :: j <= k < i ==> t[k].bytes < x.bytes
    {
      a[j] := a[j - 1];
      j := j - 1;
    }
    a[j] := x;
    InsertionPointUnique(t, x, j);
    SpliceAt(a[..i + 1], t, x, j);
  }

  lemma SpliceAt(r: seq<Row>, t: seq<Row>, x: Row, j: nat)
    requires j <= |t| && |r| == |t| + 1 && r[j] == x
    requires forall k :: 0 <= k < j ==> r[k] == t[k]
    requires forall k :: j < k < |r| ==> r[k] == t[k - 1]
    ensures r == t[..j] + [x] + t[j..]
  {
  }

  lemma InsertStep(s: seq<Row>, i: nat, t: seq<Row>, x: Row, r: seq<Row>)
    requires i < |s| && x == s[i] && t == SortedDesc(s[..i])
    requires r == Insert(t, x)
    ensures r == SortedDesc(s[..i + 1])
  {
    assert s[..i + 1][..i] == s[..i];
  }

  /** The search results as the table receives them: sizes attached, then sorted by size, largest first. */
  method SortResults(items: seq<Value>) returns (rows: array<Row>)
    ensures fresh(rows)
    ensures rows[..] == SortedDesc(SizedRows(items))
  {
    rows := new Row[|items|](i requires 0 <= i < |items| => SizedRows(items)[i]);
    assert rows[..] == SizedRows(items);
    SortBySize(rows);
  }
}
