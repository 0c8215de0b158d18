/**
 * `extractTargetGroupFromArn` and the one regular expression it uses,
 * `arn:aws:elasticloadbalancing:.*:\d{12}:targetgroup/(.*)/.*`, matched the way Go's `regexp`
 * package reports a submatch: the leftmost match, and within it each `.*` as long as the rest of the
 * pattern still matches. `.` matches any character but a newline; `\d` is an ASCII digit.
 *
 * Positions: a match starts at `s` with `Prefix`; the first `.*` runs up to `j`, where `Marker` is
 * found (a colon, twelve digits, `Marker`, 26 characters in all); the group runs from `j + 26` to `k`,
 * where a slash follows; the last `.*` takes whatever comes after.
 */
module TargetGroupArn {
  import opened Common
  import opened Terraform

  const Prefix := "arn:aws:elasticloadbalancing:"
  const Marker := ":targetgroup/"

  /** The error `extractTargetGroupFromArn` returns. */
  const NoNameError := Message("cannot determine targret group name from target group arn")

  predicate IsDigit(c: char) { '0' <= c <= '9' }

  /** No newline in `t[a..b]`: the text a `.*` may cover. */
  predicate NoNewline(t: string, a: int, b: int)
    requires 0 <= a <= b <= |t|
  {
    forall i :: a <= i < b ==> t[i] != '\n'
  }

  /** `:\d{12}:targetgroup/` occurs at `j`. */
  predicate MidAt(t: string, j: int) {
    0 <= j && j + 26 <= |t| && t[j] == ':' &&
    (forall i :: j + 1 <= i < j + 13 ==> IsDigit(t[i])) &&
    t[j + 13..j + 26] == Marker
  }

  /** The first newline at or after `i`, or the end of the text. */
  function NextNewline(t: string, i: int): (r: int)
    requires 0 <= i <= |t|
    ensures i <= r <= |t| && NoNewline(t, i, r)
    ensures r < |t| ==> t[r] == '\n'
    decreases |t| - i
  {
    if i == |t| || t[i] == '\n' then i else NextNewline(t, i + 1)
  }

  /** The last slash in `t[lo..hi]`. */
  function LastSlash(t: string, lo: int, hi: int): (r: Option<int>)
    requires 0 <= lo && hi <= |t|
    ensures r.Some? ==> lo <= r.value < hi && t[r.value] == '/'
    ensures r.Some? ==> forall k :: r.value < k < hi ==> t[k] != '/'
    ensures r.None? ==> forall k :: lo <= k < hi ==> t[k] != '/'
    decreases hi - lo
  {
    if hi <= lo then None
    else if t[hi - 1] == '/' then Some(hi - 1)
    else LastSlash(t, lo, hi - 1)
  }

  /** Where the group ends when the marker is taken at `j`: the last slash the group can reach. */
  function GroupEnd(t: string, j: int): (r: Option<int>)
    requires 0 <= j <= |t|
    ensures r.Some? ==> MidAt(t, j) && j + 26 <= r.value < |t| && t[r.value] == '/' &&
                        NoNewline(t, j + 26, r.value)
  {
    if MidAt(t, j) then LastSlash(t, j + 26, NextNewline(t, j + 26)) else None
  }

  /** The largest `j` in `[lo, hi]` at which the rest of the pattern matches, with its group end. */
  function LastMarker(t: string, lo: int, hi: int): (r: Option<(int, int)>)
    requires 0 <= lo && hi <= |t|
    ensures r.Some? ==> lo <= r.value.0 <= hi && GroupEnd(t, r.value.0) == Some(r.value.1)
    ensures r.Some? ==> forall j :: r.value.0 < j <= hi ==> GroupEnd(t, j).None?
    ensures r.None? ==> forall j :: lo <= j <= hi ==> GroupEnd(t, j).None?
    decreases hi - lo
  {
    if hi < lo then None
    else if GroupEnd(t, hi).Some? then Some((hi, GroupEnd(t, hi).value))
    else LastMarker(t, lo, hi - 1)
  }

  /** The group captured by a match that starts at `s`, if one does. */
  function MatchAt(t: string, s: int): (r: Option<string>)
    requires 0 <= s <= |t|
  {
    if s + |Prefix| <= |t| && t[s..s + |Prefix|] == Prefix then
      var lo := s + |Prefix|;
      match LastMarker(t, lo, NextNewline(t, lo))
      case Some((j, k)) => Some(t[j + 26..k])
      case None => None
    else None
  }

  /** `FindStringSubmatch(t)[1]` for the leftmost match at or after `s`. */
  function FindSubmatch(t: string, s: int): Option<string>
    requires 0 <= s <= |t|
    decreases |t| - s
  {
    if MatchAt(t, s).Some? then MatchAt(t, s)
    else if s == |t| then None
    else FindSubmatch(t, s + 1)
  }

  /** `extractTargetGroupFromArn`: the captured name, or an error when nothing or "" is captured. */
  function ExtractTargetGroupFromArn(arn: string): (r: Result<string, Error>)
    ensures r.Ok? ==> r.value != ""
    ensures r.Err? ==> r.error == NoNameError
  {
    match FindSubmatch(arn, 0)
    case Some(name) => if name != "" then Ok(name) else Err(NoNameError)
    case None => Err(NoNameError)
  }

  /** A match of the whole pattern with the prefix at `s`, the marker at `j` and the slash at `k`. */
  ghost predicate CaptureAt(t: string, s: int, j: int, k: int) {
    0 <= s && s + |Prefix| <= j && j + 26 <= k < |t| &&
    t[s..s + |Prefix|] == Prefix && NoNewline(t, s + |Prefix|, j) &&
    MidAt(t, j) && NoNewline(t, j + 26, k) && t[k] == '/'
  }

  lemma MatchAtIsCapture(t: string, s: int)
    requires 0 <= s <= |t| && MatchAt(t, s).Some?
    ensures exists j, k :: CaptureAt(t, s, j, k) && MatchAt(t, s).value == t[j + 26..k]
  {
    var lo := s + |Prefix|;
    var nl := NextNewline(t, lo);
    var jk := LastMarker(t, lo, nl).value;
    var j, k := jk.0, jk.1;
    assert NoNewline(t, lo, j);
    assert CaptureAt(t, s, j, k);
  }

  lemma {:induction false} FindSubmatchIsCapture(t: string, s: int)
    requires 0 <= s <= |t| && FindSubmatch(t, s).Some?
    ensures exists s', j, k :: s <= s' && CaptureAt(t, s', j, k) && FindSubmatch(t, s).value == t[j + 26..k]
    decreases |t| - s
  {
    if MatchAt(t, s).Some? {
      MatchAtIsCapture(t, s);
    } else {
      FindSubmatchIsCapture(t, s + 1);
    }
  }

  /** A name extracted from an ARN is the text between `:targetgroup/` and a later slash of a match. */
  lemma ExtractedNameFollowsMarker(arn: string)
    requires ExtractTargetGroupFromArn(arn).Ok?
    ensures exists s, j, k :: CaptureAt(arn, s, j, k) && arn[j + 26..k] == ExtractTargetGroupFromArn(arn).value
  {
    FindSubmatchIsCapture(arn, 0);
  }

  /** Text a `.*` of the canonical ARN format never has to cross: no separator of the format. */
  predicate PlainSegment(x: string) {
    forall i :: 0 <= i < |x| ==> x[i] != ':' && x[i] != '/' && x[i] != '\n'
  }

  predicate IsAccountId(a: string) {
    |a| == 12 && forall i :: 0 <= i < 12 ==> IsDigit(a[i])
  }

  /** `arn:aws:elasticloadbalancing:<region>:<account>:targetgroup/<name>/<id>`. */
  function CanonicalArn(region: string, account: string, name: string, id: string): string {
    Prefix + region + ":" + account + Marker + name + "/" + id
  }

  lemma {:induction false} LastMarkerSkips(t: string, lo: int, hi: int, j0: int)
    requires 0 <= lo <= j0 <= hi <= |t|
    requires GroupEnd(t, j0).Some?
    requires forall j :: j0 < j <= hi ==> GroupEnd(t, j).None?
    ensures LastMarker(t, lo, hi) == Some((j0, GroupEnd(t, j0).value))
    decreases hi - lo
  {
    if hi > j0 {
      LastMarkerSkips(t, lo, hi - 1, j0);
    }
  }

  /** Where each of eight concatenated pieces sits. */
  lemma Pieces(a: string, b: string, c: string, d: string, e: string, f: string, g: string, h: string)
    ensures var t := a + b + c + d + e + f + g + h;
      var i1 := |a|; var i2 := i1 + |b|; var i3 := i2 + |c|; var i4 := i3 + |d|;
      var i5 := i4 + |e|; var i6 := i5 + |f|; var i7 := i6 + |g|;
      t[..i1] == a && t[i1..i2] == b && t[i2..i3] == c && t[i3..i4] == d &&
      t[i4..i5] == e && t[i5..i6] == f && t[i6..i7] == g && t[i7..] == h
  {
    var t := a + b + c + d + e + f + g + h;
    var i1 := |a|; var i2 := i1 + |b|; var i3 := i2 + |c|; var i4 := i3 + |d|;
    var i5 := i4 + |e|; var i6 := i5 + |f|; var i7 := i6 + |g|;
    assert t[..i7] == a + b + c + d + e + f + g;
    assert t[..i6] == a + b + c + d + e + f;
    assert t[..i5] == a + b + c + d + e;
    assert t[..i4] == a + b + c + d;
    assert t[..i3] == a + b + c;
    assert t[..i2] == a + b;
  }

  /** Where each part of a canonical ARN sits. */
  lemma CanonicalLayout(region: string, account: string, name: string, id: string)
    requires |account| == 12
    ensures var t := CanonicalArn(region, account, name, id);
      var j0 := |Prefix| + |region|;
      var k0 := j0 + 26 + |name|;
      |t| == k0 + 1 + |id| &&
      t[..|Prefix|] == Prefix && t[|Prefix|..j0] == region && t[j0] == ':' &&
      t[j0 + 1..j0 + 13] == account && t[j0 + 13..j0 + 26] == Marker &&
      t[j0 + 26..k0] == name && t[k0] == '/' && t[k0 + 1..] == id
  {
    Pieces(Prefix, region, ":", account, Marker, name, "/", id);
    var t := CanonicalArn(region, account, name, id);
    var j0 := |Prefix| + |region|;
    var k0 := j0 + 26 + |name|;
    assert t[j0..j0 + 1] == ":";
    assert t[j0] == t[j0..j0 + 1][0];
    assert t[k0..k0 + 1] == "/";
    assert t[k0] == t[k0..k0 + 1][0];
  }

  /** The marker sits right after the region and nowhere later. */
  lemma CanonicalMarkerIsLast(region: string, account: string, name: string, id: string)
    requires PlainSegment(region) && PlainSegment(name) && PlainSegment(id) && IsAccountId(account)
    ensures var t := CanonicalArn(region, account, name, id);
      var j0 := |Prefix| + |region|;
      MidAt(t, j0) && forall j :: j0 < j <= |t| ==> !MidAt(t, j)
  {
    var t := CanonicalArn(region, account, name, id);
    var j0 := |Prefix| + |region|;
    var g := j0 + 26;
    var k0 := g + |name|;
    CanonicalLayout(region, account, name, id);
    forall i | j0 + 1 <= i < j0 + 13 ensures IsDigit(t[i]) {
      assert t[i] == t[j0 + 1..j0 + 13][i - j0 - 1];
    }
    forall j | j0 < j <= |t| ensures !MidAt(t, j) {
      if j < j0 + 13 {
        assert t[j] == t[j0 + 1..j0 + 13][j - j0 - 1];
      } else if j == j0 + 13 {
        assert t[j + 1] == t[j0 + 13..g][1];
      } else if j < g {
        assert t[j] == t[j0 + 13..g][j - j0 - 13];
      } else if j < k0 {
        assert t[j] == t[g..k0][j - g];
      } else if j > k0 && j < |t| {
        assert t[j] == t[k0 + 1..][j - k0 - 1];
      }
    }
  }

  /** A canonical ARN holds no newline, and its last slash is the one after the name. */
  lemma CanonicalLines(region: string, account: string, name: string, id: string)
    requires PlainSegment(region) && PlainSegment(name) && PlainSegment(id) && IsAccountId(account)
    ensures var t := CanonicalArn(region, account, name, id);
      var j0 := |Prefix| + |region|;
      NoNewline(t, 0, |t|) &&
      LastSlash(t, j0 + 26, |t|) == Some(j0 + 26 + |name|)
  {
    var t := CanonicalArn(region, account, name, id);
    var n := |Prefix|;
    var j0 := n + |region|;
    var g := j0 + 26;
    var k0 := g + |name|;
    CanonicalLayout(region, account, name, id);
    forall i | 0 <= i < |t| ensures t[i] != '\n' {
      if i < n {
        assert t[i] == t[..n][i];
      } else if i < j0 {
        assert t[i] == t[n..j0][i - n];
      } else if j0 < i < j0 + 13 {
        assert t[i] == t[j0 + 1..j0 + 13][i - j0 - 1];
      } else if j0 + 13 <= i < g {
        assert t[i] == t[j0 + 13..g][i - j0 - 13];
      } else if g <= i < k0 {
        assert t[i] == t[g..k0][i - g];
      } else if i > k0 {
        assert t[i] == t[k0 + 1..][i - k0 - 1];
      }
    }
    forall k | k0 < k < |t| ensures t[k] != '/' {
      assert t[k] == t[k0 + 1..][k - k0 - 1];
    }
  }

  /** The name of a target group is extracted from its canonical ARN. */
  lemma CanonicalArnYieldsName(region: string, account: string, name: string, id: string)
    requires PlainSegment(region) && PlainSegment(name) && PlainSegment(id) && IsAccountId(account)
    requires name != ""
    ensures ExtractTargetGroupFromArn(CanonicalArn(region, account, name, id)) == Ok(name)
  {
    var t := CanonicalArn(region, account, name, id);
    var n := |Prefix|;
    var j0 := n + |region|;
    var g := j0 + 26;
    CanonicalLayout(region, account, name, id);
    CanonicalMarkerIsLast(region, account, name, id);
    CanonicalLines(region, account, name, id);
    assert NextNewline(t, n) == |t|;
    assert NextNewline(t, g) == |t|;
    assert GroupEnd(t, j0) == Some(g + |name|);
    LastMarkerSkips(t, n, |t|, j0);
    assert MatchAt(t, 0) == Some(name);
  }
}
