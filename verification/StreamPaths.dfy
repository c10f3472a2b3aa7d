/** Names of the RTSP streams: mount paths, their parsing, and the counters they select.
    Ten H265 streams (two groups, views 1234 and 1 to 4) and eight H264 ones (no view 1234). */
module StreamPaths {
  import opened Options

  const GROUPS := 2
  const VIEWS := 5
  const H264_VIEWS := 4
  const STREAMS := GROUPS * VIEWS
  const H264_STREAMS := GROUPS * H264_VIEWS
  const H264_SUFFIX := "_h264"

  // group 0 is s1; view 0 is the combined view 1234.
  datatype Stream = Stream(group: nat, view: nat, h264: bool)

  predicate Exists(st: Stream) {
    st.group < GROUPS && st.view < VIEWS && (st.h264 ==> 1 <= st.view)
  }

  function StreamIndex(st: Stream): nat {
    st.group * VIEWS + st.view
  }

  function H264Index(st: Stream): nat
    requires 1 <= st.view
  {
    st.group * H264_VIEWS + (st.view - 1)
  }

  function StreamId(st: Stream): nat
    requires Exists(st)
  {
    if st.h264 then 1000 + H264Index(st) else StreamIndex(st)
  }

  /** The id tells streams apart, and each has a counter of its own. */
  lemma IdsDistinct(a: Stream, b: Stream)
    requires Exists(a) && Exists(b)
    ensures StreamId(a) == StreamId(b) <==> a == b
    ensures a.h264 == b.h264 ==>
              (if a.h264 then (H264Index(a) == H264Index(b) <==> a == b) else (StreamIndex(a) == StreamIndex(b) <==> a == b))
    ensures if a.h264 then H264Index(a) < 8 && 1000 <= StreamId(a) < 1008 else StreamIndex(a) < 10 && StreamId(a) < 10
  {
    assert a.group == 0 || a.group == 1;
    assert b.group == 0 || b.group == 1;
  }

  // ---------- Mount paths ----------

  function ViewName(view: nat): string {
    match view
    case 0 => "1234"
    case 1 => "1"
    case 2 => "2"
    case 3 => "3"
    case _ => "4"
  }

  function MountPath(st: Stream): string {
    "/" + (if st.group == 0 then "s1" else "s2") + "_" + ViewName(st.view) + if st.h264 then H264_SUFFIX else ""
  }

  function FindSlash(path: string, from: nat): (i: nat)
    requires from <= |path|
    ensures from <= i <= |path|
    ensures '/' !in path[from..i] && (i < |path| ==> path[i] == '/')
    decreases |path| - from
  {
    if from == |path| || path[from] == '/' then from else FindSlash(path, from + 1)
  }

  predicate EndsWith(s: string, suffix: string) {
    |s| >= |suffix| && s[|s| - |suffix|..] == suffix
  }

  predicate IsDigit(c: char) {
    '0' <= c <= '9'
  }

  // The decimal value of p after val; reading stops as soon as it exceeds 1234.
  function Number(p: string, val: nat): Maybe<nat>
    decreases |p|
  {
    if p == "" then Just(val)
    else if !IsDigit(p[0]) then Nothing
    else
      var v := val * 10 + (p[0] as int - '0' as int);
      if v > 1234 then Just(v) else Number(p[1..], v)
  }

  function ViewOf(val: nat): Maybe<nat> {
    if val == 1234 then Just(0) else if 1 <= val <= 4 then Just(val) else Nothing
  }

  // A path with fewer than four characters fails one of the character tests.
  function ParseStreamPath(path: string): Maybe<Stream> {
    if |path| < 5 || path[..2] != "/s" || path[3] != '_' || path[2] !in "12" then Nothing
    else
      var val := Number(path[4..], 0);
      var view := if val.Just? then ViewOf(val.value) else Nothing;
      if view.Nothing? then Nothing
      else Just(Stream(if path[2] == '1' then 0 else 1, view.value, false))
  }

  function ParseActivePath(raw: string): (r: Maybe<Stream>)
    ensures r.Just? ==> Exists(r.value)
  {
    if raw == "" then Nothing
    else
      var mount := raw[..FindSlash(raw, 1)];
      if EndsWith(mount, H264_SUFFIX) then
        var key := ParseStreamPath(mount[..|mount| - |H264_SUFFIX|]);
        if key.Just? && key.value.view != 0 then Just(key.value.(h264 := true)) else Nothing
      else ParseStreamPath(mount)
  }

  // ---------- In place ----------

  method ParseNumber(p: string) returns (val: Maybe<nat>)
    ensures val == Number(p, 0)
  {
    var v: nat := 0;
    for i := 0 to |p|
      invariant Number(p, 0) == Number(p[i..], v)
    {
      if !IsDigit(p[i]) {
        return Nothing;
      }
      v := v * 10 + (p[i] as int - '0' as int);
      if v > 1234 {
        return Just(v);
      }
      assert p[i..][1..] == p[i + 1..];
    }
    return Just(v);
  }

  // ---------- Round trip ----------

  lemma NumberOfViewName(view: nat)
    requires view < VIEWS
    ensures Number(ViewName(view), 0) == Just(if view == 0 then 1234 else view)
    ensures ViewOf(Number(ViewName(view), 0).value) == Just(view)
  {
    if view == 0 {
      assert "1234"[1..] == "234";
      assert "234"[1..] == "34";
      assert "34"[1..] == "4";
      assert "4"[1..] == "";
      assert Number("4", 123) == Just(1234);
      assert Number("34", 12) == Just(1234);
      assert Number("234", 1) == Just(1234);
    } else {
      assert ViewName(view)[1..] == "";
      assert Number("", view) == Just(view);
    }
  }

  lemma PlainPath(st: Stream)
    requires Exists(st) && !st.h264
    ensures ParseStreamPath(MountPath(st)) == Just(st)
    ensures !EndsWith(MountPath(st), H264_SUFFIX)
  {
    var path := MountPath(st);
    assert path[4..] == ViewName(st.view);
    assert path[..2] == "/s";
    NumberOfViewName(st.view);
    assert path[|path| - 1] != '4' || |path| == 5 || path[|path| - 2] == '3';
    assert H264_SUFFIX[3] == '6' && H264_SUFFIX[4] == '4';
    assert |path| > 5 ==> path[|path| - 5..][3] == path[|path| - 2];
  }

  // A control sub-path is cut off again.
  lemma MountIsCutOut(mount: string, control: string)
    requires mount != "" && '/' !in mount[1..] && (control == "" || control[0] == '/')
    ensures FindSlash(mount + control, 1) == |mount|
  {
    var raw := mount + control;
    assert forall k :: 1 <= k < |mount| ==> raw[k] == mount[1..][k - 1];
    assert forall n :: |mount| < n <= |raw| ==> raw[1..n][|mount| - 1] == '/';
  }

  lemma OneSlash(st: Stream)
    requires Exists(st)
    ensures '/' !in MountPath(st)[1..]
  {
    var tail := (if st.group == 0 then "s1" else "s2") + "_" + ViewName(st.view) + if st.h264 then H264_SUFFIX else "";
    assert MountPath(st)[1..] == tail;
  }

  /** Parsing undoes naming for every stream, whatever control sub-path follows the mount. */
  lemma ParseUndoesMountPath(st: Stream, control: string)
    requires Exists(st) && (control == "" || control[0] == '/')
    ensures ParseActivePath(MountPath(st) + control) == Just(st)
  {
    var plain := st.(h264 := false);
    PlainPath(plain);
    OneSlash(st);
    MountIsCutOut(MountPath(st), control);
    CutMountParses(st, MountPath(st) + control, MountPath(plain));
  }

  lemma CutMountParses(st: Stream, raw: string, plain: string)
    requires Exists(st) && raw != "" && raw[..FindSlash(raw, 1)] == plain + if st.h264 then H264_SUFFIX else ""
    requires ParseStreamPath(plain) == Just(st.(h264 := false)) && !EndsWith(plain, H264_SUFFIX)
    ensures ParseActivePath(raw) == Just(st)
  {
    var mount := raw[..FindSlash(raw, 1)];
    if st.h264 {
      assert mount[|mount| - |H264_SUFFIX|..] == H264_SUFFIX;
      assert mount[..|mount| - |H264_SUFFIX|] == plain;
    } else {
      assert mount == plain;
    }
  }

  // ---------- What is a path ----------

  predicate Digits(p: string) {
    forall i :: 0 <= i < |p| ==> p[i] in "0123456789"
  }

  // The decimal value of a string of digits.
  function Decimal(p: string): int {
    if p == "" then 0 else 10 * Decimal(p[..|p| - 1]) + (p[|p| - 1] as int - 48)
  }

  // The same, read from the front.
  function Continued(p: string, val: int): int {
    if p == "" then val else Continued(p[1..], 10 * val + (p[0] as int - 48))
  }

  lemma {:induction false} ContinuedLast(p: string, val: int)
    requires p != ""
    ensures Continued(p, val) == 10 * Continued(p[..|p| - 1], val) + (p[|p| - 1] as int - 48)
    decreases |p|
  {
    if |p| > 1 {
      ContinuedLast(p[1..], 10 * val + (p[0] as int - 48));
      assert p[1..][..|p| - 2] == p[..|p| - 1][1..];
    } else {
      assert p[1..] == "" && p[..0] == "";
    }
  }

  lemma {:induction false} ContinuedIsDecimal(p: string)
    ensures Continued(p, 0) == Decimal(p)
    decreases |p|
  {
    if p != "" {
      ContinuedIsDecimal(p[..|p| - 1]);
      ContinuedLast(p, 0);
    }
  }

  lemma {:induction false} ContinuedGrows(p: string, val: nat)
    requires Digits(p)
    ensures val <= Continued(p, val)
    decreases |p|
  {
    if p != "" {
      assert p[0] in "0123456789";
      ContinuedGrows(p[1..], 10 * val + (p[0] as int - 48));
    }
  }

  lemma DigitIs(c: char)
    ensures IsDigit(c) <==> c in "0123456789"
  {
    var d := "0123456789";
    if IsDigit(c) {
      assert d[c as int - 48] == c;
    }
  }

  // Up to 1234 the number read is the decimal value: reading stops only beyond.
  lemma {:induction false} NumberIs(p: string, val: nat, n: nat)
    requires val <= 1234 && n <= 1234
    ensures Number(p, val) == Just(n) <==> Digits(p) && Continued(p, val) == n
    decreases |p|
  {
    if p != "" {
      DigitIs(p[0]);
      if IsDigit(p[0]) {
        var v := 10 * val + (p[0] as int - 48);
        assert Digits(p) <==> Digits(p[1..]) by {
          assert forall i :: 0 < i < |p| ==> p[i] == p[1..][i - 1];
        }
        if v <= 1234 {
          NumberIs(p[1..], v, n);
        } else if Digits(p) {
          ContinuedGrows(p[1..], v);
        }
      }
    }
  }

  // The name of a stream without its H264 suffix: any way to write the view's number.
  predicate Names(path: string, digits: string, group: nat, view: nat) {
    && group < 2 && view < 5 && digits != "" && Digits(digits)
    && Decimal(digits) == (if view == 0 then 1234 else view)
    && path == (if group == 0 then "/s1_" else "/s2_") + digits
  }

  lemma PrefixIs(path: string, group: nat)
    requires 5 <= |path| && group < 2
    ensures (path[..2] == "/s" && path[3] == '_' && path[2] == (if group == 0 then '1' else '2')) <==>
            path == (if group == 0 then "/s1_" else "/s2_") + path[4..]
  {
    var prefix := if group == 0 then "/s1_" else "/s2_";
    assert path == path[..4] + path[4..];
    assert path[..4] == path[..2] + [path[2]] + [path[3]];
    assert prefix == "/s" + [if group == 0 then '1' else '2'] + ['_'];
    if path == prefix + path[4..] {
      assert path[..4] == prefix;
      assert path[..2] == prefix[..2] == "/s";
    }
  }

  lemma PlainPathNames(path: string, st: Stream)
    ensures ParseStreamPath(path) == Just(st) <==>
              !st.h264 && 5 <= |path| && Names(path, path[4..], st.group, st.view)
  {
    if 5 <= |path| {
      var digits := path[4..];
      if st.group < 2 {
        PrefixIs(path, st.group);
      }
      if st.view < 5 {
        NumberIs(digits, 0, if st.view == 0 then 1234 else st.view);
        ContinuedIsDecimal(digits);
      }
    }
  }

  // A path of the server: a mount, its H264 suffix if it has one, and what follows the next slash.
  ghost predicate PathOf(raw: string, digits: string, control: string, st: Stream) {
    && (control == "" || control[0] == '/')
    && raw == (if st.group == 0 then "/s1_" else "/s2_") + digits + (if st.h264 then "_h264" else "") + control
    && st.group < 2 && st.view < 5 && (st.h264 ==> 1 <= st.view)
    && digits != "" && Digits(digits) && Decimal(digits) == (if st.view == 0 then 1234 else st.view)
  }

  /** A path is understood as a stream exactly when it is its name, the view's number written
      with any zeros in front, followed by nothing or by a slash and anything. */
  lemma PathIsUnderstoodIff(raw: string, st: Stream)
    ensures ParseActivePath(raw) == Just(st) <==> exists digits, control :: PathOf(raw, digits, control, st)
  {
    if ParseActivePath(raw) == Just(st) {
      UnderstoodIsPath(raw, st);
    }
    if digits, control :| PathOf(raw, digits, control, st) {
      PathIsUnderstood(raw, digits, control, st);
    }
  }

  lemma UnderstoodIsPath(raw: string, st: Stream)
    requires ParseActivePath(raw) == Just(st)
    ensures exists digits, control :: PathOf(raw, digits, control, st)
  {
    var cut := FindSlash(raw, 1);
    var mount, control := raw[..cut], raw[cut..];
    assert raw == mount + control;
    if EndsWith(mount, H264_SUFFIX) {
      H264IsPath(mount, control, st);
    } else {
      PlainIsPath(mount, control, st);
    }
  }

  lemma PlainIsPath(mount: string, control: string, st: Stream)
    requires ParseStreamPath(mount) == Just(st) && (control == "" || control[0] == '/')
    ensures 4 <= |mount| && PathOf(mount + control, mount[4..], control, st)
  {
    PlainPathNames(mount, st);
    var none := if st.h264 then "_h264" else "";
    assert mount + none + control == mount + control;
  }

  lemma H264IsPath(mount: string, control: string, st: Stream)
    requires EndsWith(mount, H264_SUFFIX) && (control == "" || control[0] == '/') && st.h264 && 1 <= st.view
    requires ParseStreamPath(mount[..|mount| - 5]) == Just(st.(h264 := false))
    ensures 9 <= |mount| && PathOf(mount + control, mount[..|mount| - 5][4..], control, st)
  {
    PlainPathNames(mount[..|mount| - 5], st.(h264 := false));
    assert mount == mount[..|mount| - 5] + "_h264";
  }

  lemma PathIsUnderstood(raw: string, digits: string, control: string, st: Stream)
    requires PathOf(raw, digits, control, st)
    ensures ParseActivePath(raw) == Just(st)
  {
    var plain := (if st.group == 0 then "/s1_" else "/s2_") + digits;
    var mount := plain + if st.h264 then "_h264" else "";
    assert raw == mount + control;
    assert plain[4..] == digits;
    PlainPathNames(plain, st.(h264 := false));
    forall i | 0 <= i < |digits| ensures digits[i] != '/' && digits[i] != 'h' {
      assert digits[i] in "0123456789";
    }
    assert forall i :: 1 <= i < |mount| ==> mount[1..][i - 1] == mount[i] != '/';
    MountIsCutOut(mount, control);
    assert raw[..|mount|] == mount;
    NoSuffix(plain, digits);
    CutMountParses(st, raw, plain);
  }

  lemma NoSuffix(plain: string, digits: string)
    requires |plain| == 4 + |digits| && plain[4..] == digits && digits != "" && Digits(digits)
    requires plain[1] == 's' && plain[2] != 'h' && plain[3] == '_'
    ensures !EndsWith(plain, H264_SUFFIX)
  {
    var fourthLast := |plain| - 4;
    assert plain[|plain| - 5..][1] == plain[fourthLast];
    if 4 <= fourthLast {
      assert plain[fourthLast] == digits[fourthLast - 4] && digits[fourthLast - 4] in "0123456789";
    }
  }
}
