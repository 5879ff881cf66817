/**
 * The hidden-report list of roadmap_map_settings: the "Dont Show reports
 * types" setting holds the report types the user hid, written as
 * decimals joined by '-'. update_reports_dont_show writes it from the
 * check boxes, roadmap_map_settings_show_report reads it back with
 * strtok and atoi.
 */
module Settings {

  /** The report types the user may hide, in menu order. */
  const AlertsUserCanToggle: seq<nat> := [0, 1, 2, 3, 5, 7]

  /** RT_ALERT_TYPE_CONSTRUCTION: offered only when construction toggling is enabled. */
  const Construction := 7

  /** The size of the buffer show_report copies the setting into. */
  const BufferSize := 100

  // ---------------------------------------------------------------------
  // strtok on '-'
  // ---------------------------------------------------------------------

  /** The length of the leading run of `s` that holds no '-'. */
  function TokenLength(s: string): (n: nat)
    ensures n <= |s|
    ensures forall k :: 0 <= k < n ==> s[k] != '-'
    ensures n < |s| ==> s[n] == '-'
  {
    if s == [] || s[0] == '-' then 0 else 1 + TokenLength(s[1..])
  }

  /**
   * The tokens strtok returns for `s` with the delimiter '-': the maximal
   * non-empty runs without '-', in order; runs of delimiters separate
   * tokens and yield none.
   */
  function Tokens(s: string): (r: seq<string>)
    decreases |s|
  {
    if s == [] then []
    else if s[0] == '-' then Tokens(s[1..])
    else var n := TokenLength(s); [s[..n]] + Tokens(s[n..])
  }

  /** Every token is non-empty and free of '-'. */
  lemma {:induction false} TokensWellFormed(s: string)
    ensures forall k :: 0 <= k < |Tokens(s)| ==> Tokens(s)[k] != [] && '-' !in Tokens(s)[k]
    decreases |s|
  {
    if s == [] {
    } else if s[0] == '-' {
      TokensWellFormed(s[1..]);
    } else {
      var n := TokenLength(s);
      TokensWellFormed(s[n..]);
      assert '-' !in s[..n];
    }
  }

  /** A word without '-' is its own single token. */
  lemma WordToken(w: string)
    requires w != [] && '-' !in w
    ensures Tokens(w) == [w]
  {
    assert forall k :: 0 <= k < |w| ==> w[k] != '-';
    WordLength(w);
    assert w[..|w|] == w;
    assert w[|w|..] == [];
  }

  lemma {:induction false} WordLength(w: string)
    requires '-' !in w
    ensures TokenLength(w) == |w|
  {
    if w != [] {
      assert w[1..] <= w[1..];
      assert '-' !in w[1..] by { assert forall k :: 0 <= k < |w[1..]| ==> w[1..][k] == w[k + 1]; }
      WordLength(w[1..]);
    }
  }

  /** A delimiter splits the tokens: those of the left part, then those of the right part. */
  lemma {:induction false} TokensSplit(a: string, b: string)
    ensures Tokens(a + ['-'] + b) == Tokens(a) + Tokens(b)
    decreases |a|
  {
    var s := a + ['-'] + b;
    if a == [] {
      assert s[1..] == b;
    } else if a[0] == '-' {
      assert s[1..] == a[1..] + ['-'] + b;
      TokensSplit(a[1..], b);
    } else {
      var n := TokenLength(a);
      TokenLengthExtend(a, ['-'] + b);
      assert s == a + (['-'] + b);
      CutAfterWord(a, b, n);
      TokensSplit(a[n..], b);
    }
  }

  lemma CutAfterWord(a: string, b: string, n: nat)
    requires n <= |a|
    ensures (a + ['-'] + b)[..n] == a[..n] && (a + ['-'] + b)[n..] == a[n..] + ['-'] + b
  {
  }

  /** The leading run of `a` ends inside `a` or at a delimiter that follows it. */
  lemma {:induction false} TokenLengthExtend(a: string, c: string)
    requires c != [] && c[0] == '-'
    ensures TokenLength(a + c) == TokenLength(a)
  {
    if a != [] && a[0] != '-' {
      assert (a + c)[1..] == a[1..] + c;
      TokenLengthExtend(a[1..], c);
    } else if a == [] {
      assert a + c == c;
    }
  }

  // ---------------------------------------------------------------------
  // atoi and the decimal form
  // ---------------------------------------------------------------------

  /** C's isspace in the "C" locale. */
  predicate IsSpace(c: char)
  {
    c == ' ' || (9 as char <= c <= 13 as char)
  }

  predicate IsDigit(c: char)
  {
    '0' <= c <= '9'
  }

  /** `s` without its leading white space. */
  function SkipSpaces(s: string): (r: string)
    ensures |r| <= |s| && r == s[|s| - |r|..]
    ensures r != [] ==> !IsSpace(r[0])
  {
    if s != [] && IsSpace(s[0]) then SkipSpaces(s[1..]) else s
  }

  /** The length of the leading run of digits of `s`. */
  function DigitRun(s: string): (n: nat)
    ensures n <= |s| && forall k :: 0 <= k < n ==> IsDigit(s[k])
    ensures n < |s| ==> !IsDigit(s[n])
  {
    if s != [] && IsDigit(s[0]) then 1 + DigitRun(s[1..]) else 0
  }

  function DigitValue(c: char): (d: nat)
    requires IsDigit(c)
    ensures d < 10
  {
    c as int - '0' as int
  }

  /** The value of a string of decimal digits, most significant first. */
  /** The leading run of digits of `s`. */
  function LeadingDigits(s: string): (ds: string)
    ensures ds == s[..DigitRun(s)] && forall k :: 0 <= k < |ds| ==> IsDigit(ds[k])
  {
    s[..DigitRun(s)]
  }

  function Value(ds: string): (v: nat)
    requires forall k :: 0 <= k < |ds| ==> IsDigit(ds[k])
  {
    if ds == [] then 0 else 10 * Value(ds[..|ds| - 1]) + DigitValue(ds[|ds| - 1])
  }

  /**
   * C's atoi, without its overflow: leading white space, an optional
   * sign, then as many digits as follow; 0 when there are none.
   */
  function Atoi(s: string): int
  {
    var t := SkipSpaces(s);
    if t != [] && (t[0] == '-' || t[0] == '+') then
      var u := t[1..];
      var v: int := Value(LeadingDigits(u));
      if t[0] == '-' then -v else v
    else
      Value(LeadingDigits(t))
  }

  /** The decimal digit for `d`. */
  function Digit(d: int): (c: char)
    requires 0 <= d < 10
    ensures IsDigit(c) && DigitValue(c) == d
  {
    ('0' as int + d) as char
  }

  /** snprintf's "%d" of a non-negative number: its decimal digits, no sign, no leading zero. */
  function Decimal(n: nat): (r: string)
    ensures r != [] && forall k :: 0 <= k < |r| ==> IsDigit(r[k])
    ensures |r| == 1 <==> n < 10
  {
    if n < 10 then [Digit(n)] else Decimal(n / 10) + [Digit(n % 10)]
  }

  /** The decimal form reads back as its number. */
  lemma {:induction false} ValueDecimal(n: nat)
    ensures Value(Decimal(n)) == n
  {
    if n >= 10 {
      var r := Decimal(n);
      assert r[..|r| - 1] == Decimal(n / 10);
      ValueDecimal(n / 10);
    }
  }

  lemma {:induction false} DigitRunAll(s: string)
    requires forall k :: 0 <= k < |s| ==> IsDigit(s[k])
    ensures DigitRun(s) == |s|
  {
    if s != [] {
      DigitRunAll(s[1..]);
    }
  }

  /** atoi of the decimal form of `n` is `n`. */
  lemma AtoiDecimal(n: nat)
    ensures Atoi(Decimal(n)) == n
  {
    var r := Decimal(n);
    assert SkipSpaces(r) == r;
    DigitRunAll(r);
    assert r[..|r|] == r;
    ValueDecimal(n);
  }

  // ---------------------------------------------------------------------
  // roadmap_map_settings_show_report
  // ---------------------------------------------------------------------

  /**
   * Reference definition of roadmap_map_settings_show_report: a report
   * type is shown unless atoi of some token of the setting equals it.
   */
  predicate Shown(config: string, iType: int)
  {
    forall k :: 0 <= k < |Tokens(config)| ==> Atoi(Tokens(config)[k]) != iType
  }

  /** With the declared default, the empty setting, every report type is shown. */
  lemma DefaultShowsAll(iType: int)
    ensures Shown("", iType)
  {
  }

  /**
   * One strtok call on the copy, from position `pos`: skip delimiters,
   * then take the run up to the next '-' or the end.
   */
  method NextToken(s: string, pos: int) returns (found: bool, start: int, end: int)
    requires 0 <= pos <= |s|
    ensures found ==> pos <= start < end <= |s| && Tokens(s[pos..]) == [s[start..end]] + Tokens(s[end..])
    ensures !found ==> Tokens(s[pos..]) == []
  {
    start := pos;
    while start < |s| && s[start] == '-'
      invariant pos <= start <= |s| && Tokens(s[pos..]) == Tokens(s[start..])
    {
      assert s[start..][1..] == s[start + 1..];
      start := start + 1;
    }
    if start == |s| {
      return false, start, start;
    }
    end := TokenEnd(s, start);
    TokensAt(s, start);
    found := true;
  }

  /** The scan of one strtok call to the end of its token. */
  method TokenEnd(s: string, start: int) returns (end: int)
    requires 0 <= start <= |s|
    ensures end == start + TokenLength(s[start..])
  {
    end := start;
    while end < |s| && s[end] != '-'
      invariant start <= end <= |s| && TokenLength(s[start..]) == (end - start) + TokenLength(s[end..])
    {
      assert s[end..][1..] == s[end + 1..];
      end := end + 1;
    }
  }

  lemma TokensAt(s: string, start: int)
    requires 0 <= start < |s| && s[start] != '-'
    ensures var n := TokenLength(s[start..]);
            0 < n && Tokens(s[start..]) == [s[start..start + n]] + Tokens(s[start + n..])
  {
    var n := TokenLength(s[start..]);
    assert s[start..][..n] == s[start..start + n];
    assert s[start..][n..] == s[start + n..];
  }

  /**
   * roadmap_map_settings_show_report: copy the setting, walk its tokens
   * with strtok and report false at the first whose atoi is `iType`.
   */
  method ShowReport(config: string, iType: int) returns (show: bool)
    requires |config| < BufferSize
    ensures show <==> Shown(config, iType)
  {
    var copy := config;
    var pos := 0;
    ghost var done: seq<string> := [];
    while true
      invariant ReadUpTo(copy, pos, done, iType)
      decreases |copy| - pos
    {
      var found, start, end := NextToken(copy, pos);
      if !found {
        ReadAll(copy, pos, done, iType);
        return true;
      }
      var token := copy[start..end];
      if Atoi(token) == iType {
        ReadHit(copy, pos, done, iType, token);
        return false;
      }
      ReadNext(copy, pos, end, done, iType, token);
      done := done + [token];
      pos := end;
    }
  }

  /** The tokens before `pos` are `done`, and none of them reads as `iType`. */
  ghost predicate ReadUpTo(copy: string, pos: int, done: seq<string>, iType: int)
  {
    0 <= pos <= |copy| && Tokens(copy) == done + Tokens(copy[pos..]) &&
    forall k :: 0 <= k < |done| ==> Atoi(done[k]) != iType
  }

  lemma ReadNext(copy: string, pos: int, end: int, done: seq<string>, iType: int, token: string)
    requires ReadUpTo(copy, pos, done, iType) && pos <= end <= |copy| && Atoi(token) != iType
    requires Tokens(copy[pos..]) == [token] + Tokens(copy[end..])
    ensures ReadUpTo(copy, end, done + [token], iType)
  {
    PushAssoc(done, token, Tokens(copy[end..]));
    NoneReads(done, token, iType);
  }

  lemma PushAssoc<T>(a: seq<T>, x: T, b: seq<T>)
    ensures a + ([x] + b) == (a + [x]) + b
  {
  }

  lemma NoneReads(done: seq<string>, token: string, iType: int)
    requires forall k :: 0 <= k < |done| ==> Atoi(done[k]) != iType
    requires Atoi(token) != iType
    ensures forall k :: 0 <= k < |done + [token]| ==> Atoi((done + [token])[k]) != iType
  {
    forall k | 0 <= k < |done| + 1
      ensures Atoi((done + [token])[k]) != iType
    {
      if k < |done| {
        assert (done + [token])[k] == done[k];
      }
    }
  }

  lemma ReadHit(copy: string, pos: int, done: seq<string>, iType: int, token: string)
    requires ReadUpTo(copy, pos, done, iType) && Atoi(token) == iType
    requires exists rest :: Tokens(copy[pos..]) == [token] + rest
    ensures !Shown(copy, iType)
  {
    assert Tokens(copy)[|done|] == token;
  }

  lemma ReadAll(copy: string, pos: int, done: seq<string>, iType: int)
    requires ReadUpTo(copy, pos, done, iType) && Tokens(copy[pos..]) == []
    ensures Shown(copy, iType)
  {
    assert Tokens(copy) == done;
  }

  // ---------------------------------------------------------------------
  // update_reports_dont_show
  // ---------------------------------------------------------------------

  /** The report types offered in the menu: construction only when its toggling is enabled. */
  function Offered(toggleConstruction: bool): (r: seq<nat>)
    ensures toggleConstruction ==> r == AlertsUserCanToggle
    ensures !toggleConstruction ==> r == [0, 1, 2, 3, 5]
  {
    if toggleConstruction then AlertsUserCanToggle else AlertsUserCanToggle[..5]
  }

  /**
   * The types update_reports_dont_show writes, among the first `i`
   * toggleable ones: those offered whose check box is not "yes", in order.
   */
  function Written(checked: seq<bool>, toggleConstruction: bool, i: nat): (r: seq<nat>)
    requires |checked| == |AlertsUserCanToggle| && i <= |checked|
  {
    if i == 0 then []
    else
      var pre := Written(checked, toggleConstruction, i - 1);
      var t := AlertsUserCanToggle[i - 1];
      if (!toggleConstruction && t == Construction) || checked[i - 1] then pre else pre + [t]
  }

  lemma WrittenStep(checked: seq<bool>, toggleConstruction: bool, i: nat)
    requires |checked| == |AlertsUserCanToggle| && i < |checked|
    ensures Written(checked, toggleConstruction, i + 1) ==
            if (!toggleConstruction && AlertsUserCanToggle[i] == Construction) || checked[i]
            then Written(checked, toggleConstruction, i)
            else Written(checked, toggleConstruction, i) + [AlertsUserCanToggle[i]]
  {
  }

  /** The written types are offered, unchecked, in menu order and without repeats. */
  lemma {:induction false} WrittenMeaning(checked: seq<bool>, toggleConstruction: bool, i: nat)
    requires |checked| == |AlertsUserCanToggle| && i <= |checked|
    ensures var w := Written(checked, toggleConstruction, i);
            |w| <= i &&
            (forall t :: t in w <==>
                exists k :: 0 <= k < i && AlertsUserCanToggle[k] == t && !checked[k] &&
                            (toggleConstruction || t != Construction)) &&
            (forall p, q :: 0 <= p < q < |w| ==> w[p] < w[q]) &&
            (forall t :: t in w ==> t in Offered(toggleConstruction) && 0 <= t < 10)
  {
    if i > 0 {
      WrittenMeaning(checked, toggleConstruction, i - 1);
      var pre := Written(checked, toggleConstruction, i - 1);
      forall p | 0 <= p < |pre|
        ensures pre[p] < AlertsUserCanToggle[i - 1]
      {
        assert pre[p] in pre;
        var k :| 0 <= k < i - 1 && AlertsUserCanToggle[k] == pre[p];
      }
    }
  }

  /** The setting's text for a list of types: their decimals joined by single '-'. */
  function Join(ws: seq<nat>): (r: string)
    ensures ws == [] <==> r == []
  {
    if ws == [] then []
    else if |ws| == 1 then Decimal(ws[0])
    else Join(ws[..|ws| - 1]) + ['-'] + Decimal(ws[|ws| - 1])
  }

  /** The joined text has no leading or trailing '-' and is read back token for token. */
  lemma {:induction false} JoinTokens(ws: seq<nat>)
    ensures |Tokens(Join(ws))| == |ws|
    ensures forall k :: 0 <= k < |ws| ==> Tokens(Join(ws))[k] == Decimal(ws[k])
    ensures Join(ws) != [] ==> Join(ws)[0] != '-' && Join(ws)[|Join(ws)| - 1] != '-'
  {
    if ws == [] {
    } else if |ws| == 1 {
      DecimalWord(ws[0]);
      WordToken(Decimal(ws[0]));
    } else {
      var pre := ws[..|ws| - 1];
      var d := Decimal(ws[|ws| - 1]);
      JoinTokens(pre);
      DecimalWord(ws[|ws| - 1]);
      WordToken(d);
      TokensSplit(Join(pre), d);
      assert Join(ws) == Join(pre) + ['-'] + d;
    }
  }

  lemma DecimalWord(n: nat)
    ensures '-' !in Decimal(n) && Decimal(n)[0] != '-'
  {
    var r := Decimal(n);
    assert forall k :: 0 <= k < |r| ==> r[k] != '-';
  }

  /**
   * Round trip: show_report on the text written for `ws` is false
   * exactly for the types written.
   */
  lemma RoundTrip(ws: seq<nat>, iType: int)
    ensures !Shown(Join(ws), iType) <==> iType in ws
  {
    JoinTokens(ws);
    var tokens := Tokens(Join(ws));
    if iType in ws {
      var k :| 0 <= k < |ws| && ws[k] == iType;
      AtoiDecimal(ws[k]);
      assert Atoi(tokens[k]) == iType;
    } else {
      forall k | 0 <= k < |tokens|
        ensures Atoi(tokens[k]) != iType
      {
        AtoiDecimal(ws[k]);
      }
    }
  }

  /** Single-digit types take one character each and one separator between two. */
  lemma {:induction false} JoinLength(ws: seq<nat>)
    requires forall k :: 0 <= k < |ws| ==> ws[k] < 10
    ensures ws != [] ==> |Join(ws)| == 2 * |ws| - 1
  {
    if |ws| > 1 {
      JoinLength(ws[..|ws| - 1]);
    }
  }

  /** Appending a type to the list appends its decimal, after a '-' unless it is the first. */
  lemma JoinPush(ws: seq<nat>, t: nat)
    ensures Join(ws + [t]) == if ws == [] then Decimal(t) else Join(ws) + "-" + Decimal(t)
  {
    assert (ws + [t])[..|ws|] == ws;
  }

  /**
   * update_reports_dont_show, given the check boxes of the toggleable
   * types in menu order (true for "yes") and whether construction
   * toggling is enabled: the unchecked offered types as decimals, a '-'
   * before each but the first.
   */
  method UpdateReportsDontShow(checked: seq<bool>, toggleConstruction: bool) returns (data: string)
    requires |checked| == |AlertsUserCanToggle|
    ensures data == Join(Written(checked, toggleConstruction, |checked|))
  {
    data := "";
    var firstReport := true;
    ghost var w: seq<nat> := [];
    var i := 0;
    while i < |AlertsUserCanToggle|
      invariant 0 <= i <= |checked|
      invariant w == Written(checked, toggleConstruction, i)
      invariant data == Join(w) && (firstReport <==> w == [])
    {
      var t := AlertsUserCanToggle[i];
      WrittenStep(checked, toggleConstruction, i);
      if !toggleConstruction && t == Construction {
        i := i + 1;
        continue;
      }
      if !checked[i] {
        JoinPush(w, t);
        ghost var joined := Join(w + [t]);
        if firstReport {
          firstReport := false;
          data := data + Decimal(t);
          assert data == joined;
        } else {
          data := data + "-";
          data := data + Decimal(t);
          assert data == joined;
        }
        w := w + [t];
      }
      i := i + 1;
    }
  }

  /**
   * What update_reports_dont_show writes: never the construction type
   * unless its toggling is enabled, at most 11 characters, so it fits
   * show_report's buffer, and read back by show_report as hidden exactly
   * for the unchecked offered types.
   */
  lemma WrittenSetting(checked: seq<bool>, toggleConstruction: bool, iType: int)
    requires |checked| == |AlertsUserCanToggle|
    ensures var w := Written(checked, toggleConstruction, |checked|);
            (!toggleConstruction ==> Construction !in w) &&
            |Join(w)| <= 11 < BufferSize &&
            (!Shown(Join(w), iType) <==>
               exists k :: 0 <= k < |checked| && AlertsUserCanToggle[k] == iType && !checked[k] &&
                           (toggleConstruction || iType != Construction))
  {
    var w := Written(checked, toggleConstruction, |checked|);
    WrittenMeaning(checked, toggleConstruction, |checked|);
    assert forall k :: 0 <= k < |w| ==> w[k] in w;
    JoinLength(w);
    RoundTrip(w, iType);
  }

  // ---------------------------------------------------------------------
  // roadmap_map_settings_allowed_alerts
  // ---------------------------------------------------------------------

  /**
   * roadmap_map_settings_allowed_alerts: nothing before the settings are
   * initialised; otherwise the toggleable types, in order, and their number.
   */
  method AllowedAlerts(initialized: bool, out: array<int>) returns (count: int)
    requires initialized ==> out.Length >= |AlertsUserCanToggle|
    modifies out
    ensures !initialized ==> count == 0 && out[..] == old(out[..])
    ensures initialized ==> count == |AlertsUserCanToggle| && out[..count] == AlertsUserCanToggle &&
                            out[count..] == old(out[count..])
  {
    if !initialized {
      return 0;
    }
    count := |AlertsUserCanToggle|;
    var i := 0;
    while i < count
      invariant 0 <= i <= count && out[..i] == AlertsUserCanToggle[..i]
      invariant out[count..] == old(out[count..])
    {
      out[i] := AlertsUserCanToggle[i];
      i := i + 1;
    }
  }
}
