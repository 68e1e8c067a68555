/**
 * Segment planning of `splitTrack` in `src/utils.ts`: a track longer than the
 * maximum duration is cut into `ceil(duration / maximum)` segments of equal
 * length, each extracted by ffmpeg into `dir/name + suffix(n) + ext`.
 *
 * The duration ffprobe reports is a parameter, as a real number; the ffmpeg
 * extractions are returned as the list of segments they are asked for.
 */
module SplitTrack {
  import opened Paths

  /** `Math.ceil`: the least integer not below `x`. */
  function Ceil(x: real): (n: int)
    ensures n as real >= x && (n - 1) as real < x
  {
    -((-x).Floor)
  }

  // ---------------------------------------------------------------------------
  // Segment names

  const Digits: string := "0123456789"

  /** The decimal digits of `n`, most significant first, as a template literal prints a whole number. */
  function NatToString(n: nat): (s: string)
    ensures |s| >= 1
    ensures forall i :: 0 <= i < |s| ==> s[i] in Digits
    decreases n
  {
    if n < 10 then [Digits[n]] else NatToString(n / 10) + [Digits[n % 10]]
  }

  /** The value of a decimal digit. */
  function DigitValue(c: char): (d: nat)
    requires c in Digits
    ensures d < 10 && Digits[d] == c
  {
    if c == '0' then 0 else if c == '1' then 1 else if c == '2' then 2 else if c == '3' then 3
    else if c == '4' then 4 else if c == '5' then 5 else if c == '6' then 6 else if c == '7' then 7
    else if c == '8' then 8 else 9
  }

  /** Reading a string of decimal digits back as a number. */
  function ParseDecimal(s: string): nat
    requires forall i :: 0 <= i < |s| ==> s[i] in Digits
  {
    if s == [] then 0 else 10 * ParseDecimal(s[..|s| - 1]) + DigitValue(s[|s| - 1])
  }

  lemma {:induction false} NatToStringRoundTrip(n: nat)
    ensures ParseDecimal(NatToString(n)) == n
    decreases n
  {
    var s := NatToString(n);
    if n >= 10 {
      NatToStringRoundTrip(n / 10);
      assert s[..|s| - 1] == NatToString(n / 10);
      assert DigitValue(Digits[n % 10]) == n % 10;
    } else {
      assert DigitValue(Digits[n]) == n;
    }
  }

  /** A printed number starts with `0` only when it is 0 itself: no leading zeros. */
  lemma {:induction false} NatToStringNoLeadingZero(n: nat)
    ensures NatToString(n)[0] == '0' ==> n == 0
    decreases n
  {
    if n >= 10 {
      NatToStringNoLeadingZero(n / 10);
      assert NatToString(n)[0] == NatToString(n / 10)[0];
    }
  }

  /**
   * The default `suffix`: segment `n` is named " Part " followed by the decimal
   * digits of `n`, which read back as `n` and carry no leading zero.
   */
  function DefaultSuffix(segmentNumber: nat): (r: string)
    ensures |r| > 6 && r[..6] == " Part "
    ensures forall i :: 6 <= i < |r| ==> r[i] in Digits
    ensures ParseDecimal(r[6..]) == segmentNumber
    ensures r[6] == '0' ==> r == " Part 0"
  {
    NatToStringRoundTrip(segmentNumber);
    NatToStringNoLeadingZero(segmentNumber);
    var r := " Part " + NatToString(segmentNumber);
    assert r[6..] == NatToString(segmentNumber);
    assert NatToString(0) == "0";
    r
  }

  /** Different segment numbers get different default suffixes. */
  lemma DefaultSuffixInjective(a: nat, b: nat)
    ensures DefaultSuffix(a) == DefaultSuffix(b) ==> a == b
  {
    if DefaultSuffix(a) == DefaultSuffix(b) {
      var prefix := " Part ";
      assert NatToString(a) == DefaultSuffix(a)[|prefix|..];
      assert NatToString(b) == DefaultSuffix(b)[|prefix|..];
      NatToStringRoundTrip(a);
      NatToStringRoundTrip(b);
    }
  }

  /** `path.join(dir, name + suffix(n) + ext)`, where `dir`, `name` and `ext` come from `path.parse` of the source. */
  function SegmentPath(dir: string, name: string, ext: string, suffix: nat -> string, segmentNumber: nat): string
  {
    Join(dir, name + suffix(segmentNumber) + ext)
  }

  /** A segment is written into the source's directory under the name `name + suffix(n) + ext`. */
  lemma SegmentFileName(dir: string, name: string, ext: string, suffix: nat -> string, segmentNumber: nat)
    requires Separator !in name + suffix(segmentNumber) + ext
    ensures Base(SegmentPath(dir, name, ext, suffix, segmentNumber)) == name + suffix(segmentNumber) + ext
  {
    BaseOfJoin(dir, name + suffix(segmentNumber) + ext);
  }

  lemma JoinInjective(dir: string, a: string, b: string)
    requires Join(dir, a) == Join(dir, b)
    ensures a == b
  {
    if dir != "" {
      var head := if dir[|dir| - 1] == Separator then dir else dir + [Separator];
      assert Join(dir, a) == head + a && Join(dir, b) == head + b;
      assert a == (head + a)[|head|..];
      assert b == (head + b)[|head|..];
    }
  }

  lemma MiddleCancel(prefix: string, a: string, b: string, suffix: string)
    requires prefix + a + suffix == prefix + b + suffix
    ensures a == b
  {
    var x, y := prefix + a + suffix, prefix + b + suffix;
    assert |a| == |b|;
    assert a == x[|prefix|..|prefix| + |a|];
    assert b == y[|prefix|..|prefix| + |b|];
  }

  /** Segments whose suffixes differ are written to different files. */
  lemma SegmentPathsDiffer(dir: string, name: string, ext: string, suffix: nat -> string, a: nat, b: nat)
    requires suffix(a) != suffix(b)
    ensures SegmentPath(dir, name, ext, suffix, a) != SegmentPath(dir, name, ext, suffix, b)
  {
    var x, y := name + suffix(a) + ext, name + suffix(b) + ext;
    if SegmentPath(dir, name, ext, suffix, a) == SegmentPath(dir, name, ext, suffix, b) {
      JoinInjective(dir, x, y);
      MiddleCancel(name, suffix(a), suffix(b), ext);
    }
  }

  /** With the default suffix, the outputs of one split are pairwise distinct files. */
  lemma DefaultSegmentPathsDistinct(dir: string, name: string, ext: string, a: nat, b: nat)
    requires a != b
    ensures SegmentPath(dir, name, ext, DefaultSuffix, a) != SegmentPath(dir, name, ext, DefaultSuffix, b)
  {
    DefaultSuffixInjective(a, b);
    SegmentPathsDiffer(dir, name, ext, DefaultSuffix, a, b);
  }

  // ---------------------------------------------------------------------------
  // Segment arithmetic

  /** One ffmpeg stream-copy extraction: segment `number` from `start` to `end` into `path`. */
  datatype Segment = Segment(number: nat, start: real, end: real, path: string)

  /** For a track longer than the maximum, there are at least two segments, each no longer than the maximum. */
  lemma SegmentCountBounds(duration: real, maxDuration: real)
    requires 0.0 < maxDuration < duration
    ensures Ceil(duration / maxDuration) >= 2
    ensures duration / Ceil(duration / maxDuration) as real <= maxDuration
  {
    var n := Ceil(duration / maxDuration);
    assert duration / maxDuration > 1.0;
    assert n as real >= duration / maxDuration;
    assert n as real * maxDuration >= duration;
    assert duration / n as real <= maxDuration;
  }

  /** Where segment `k + 1` starts: `k` segment lengths after 0, each added to the previous end. */
  function Boundary(k: nat, segmentDuration: real): real
  {
    if k == 0 then 0.0 else Boundary(k - 1, segmentDuration) + segmentDuration
  }

  /** Chaining `k` segments of one length reaches `k` times that length. */
  lemma {:induction false} BoundaryIsMultiple(k: nat, segmentDuration: real)
    ensures Boundary(k, segmentDuration) == k as real * segmentDuration
  {
    if k > 0 {
      BoundaryIsMultiple(k - 1, segmentDuration);
    }
  }

  /** `count` equal segments of `duration / count` end exactly at `duration`. */
  lemma LastBoundary(duration: real, count: nat)
    requires count > 0
    ensures Boundary(count, duration / count as real) == duration
  {
    BoundaryIsMultiple(count, duration / count as real);
  }

  /** The first `k` segments of a split into segments of `segmentDuration`. */
  function Plan(dir: string, name: string, ext: string, suffix: nat -> string, k: nat, segmentDuration: real): (r: seq<Segment>)
    ensures |r| == k
  {
    if k == 0 then []
    else Plan(dir, name, ext, suffix, k - 1, segmentDuration) +
         [Segment(k, Boundary(k - 1, segmentDuration), Boundary(k, segmentDuration), SegmentPath(dir, name, ext, suffix, k))]
  }

  /** Segment n of a plan is numbered n, runs between the boundaries n - 1 and n, and is written to its segment path. */
  lemma {:induction false} PlanSegmentAt(dir: string, name: string, ext: string, suffix: nat -> string, k: nat, segmentDuration: real, i: nat)
    requires i < k
    ensures Plan(dir, name, ext, suffix, k, segmentDuration)[i] ==
            Segment(i + 1, Boundary(i, segmentDuration), Boundary(i + 1, segmentDuration), SegmentPath(dir, name, ext, suffix, i + 1))
    decreases k
  {
    if i < k - 1 {
      PlanSegmentAt(dir, name, ext, suffix, k - 1, segmentDuration, i);
    }
  }

  /**
   * The `for` loop of `splitTrack`: segment n, for n from 1 to `count`, runs
   * from the end of the previous one (0 for the first) for `segmentDuration`
   * and is written to `dir/name + suffix(n) + ext`.
   */
  method PlanSegments(dir: string, name: string, ext: string, suffix: nat -> string, count: nat, segmentDuration: real)
    returns (outputs: seq<string>, segments: seq<Segment>)
    ensures |segments| == count && |outputs| == count
    ensures forall i :: 0 <= i < count ==>
              segments[i].number == i + 1 && outputs[i] == segments[i].path &&
              segments[i].path == SegmentPath(dir, name, ext, suffix, i + 1)
    ensures forall i :: 0 <= i < count ==>
              segments[i].start == Boundary(i, segmentDuration) &&
              segments[i].end == Boundary(i + 1, segmentDuration)
    ensures forall i :: 0 <= i < count ==> segments[i].end - segments[i].start == segmentDuration
    ensures count > 0 ==> segments[0].start == 0.0
    ensures forall i :: 0 <= i < count - 1 ==> segments[i + 1].start == segments[i].end
  {
    outputs, segments := [], [];
    var start := 0.0;
    var segment := 1;
    while segment <= count
      invariant 1 <= segment <= count + 1
      invariant segments == Plan(dir, name, ext, suffix, segment - 1, segmentDuration)
      invariant start == Boundary(segment - 1, segmentDuration)
      invariant |outputs| == |segments| && forall i :: 0 <= i < |segments| ==> outputs[i] == segments[i].path
    {
      var end := start + segmentDuration;
      var newFilePath := SegmentPath(dir, name, ext, suffix, segment);
      segments := segments + [Segment(segment, start, end, newFilePath)];
      outputs := outputs + [newFilePath];
      start := end;
      segment := segment + 1;
    }
    forall i | 0 <= i < count
      ensures segments[i].number == i + 1 && segments[i].path == SegmentPath(dir, name, ext, suffix, i + 1)
      ensures segments[i].start == Boundary(i, segmentDuration) && segments[i].end == Boundary(i + 1, segmentDuration)
      ensures segments[i].end - segments[i].start == segmentDuration
    {
      PlanSegmentAt(dir, name, ext, suffix, count, segmentDuration, i);
    }
  }

  /**
   * `splitTrack`, given the duration ffprobe reported. A track no longer than
   * the maximum is returned as is; a longer one is cut into
   * `ceil(duration / maxDuration)` contiguous segments of equal length (none
   * when that count is not positive), from 0 to the whole duration, the n-th
   * written to `dir/name + suffix(n) + ext`; the outputs come back in segment
   * order. For a positive maximum there are at least two segments and none is
   * longer than the maximum. The one input excluded is a zero maximum with a
   * positive duration, on which the loop would never end.
   */
  method SplitTrack(filePath: string, maxDuration: real, duration: real, suffix: nat -> string)
    returns (outputs: seq<string>, segments: seq<Segment>)
    requires maxDuration != 0.0 || duration <= maxDuration
    ensures duration <= maxDuration ==> outputs == [filePath] && segments == []
    ensures duration > maxDuration ==>
              |outputs| == |segments| &&
              |segments| == (if Ceil(duration / maxDuration) > 0 then Ceil(duration / maxDuration) else 0)
    ensures duration > maxDuration > 0.0 ==> |segments| >= 2
    ensures forall i :: 0 <= i < |segments| ==>
              segments[i].number == i + 1 && outputs[i] == segments[i].path &&
              segments[i].path == SegmentPath(Dir(filePath), Name(filePath), Ext(filePath), suffix, i + 1)
    ensures forall i :: 0 <= i < |segments| ==> segments[i].end - segments[i].start == duration / |segments| as real
    ensures maxDuration > 0.0 ==> forall i :: 0 <= i < |segments| ==> segments[i].end - segments[i].start <= maxDuration
    ensures |segments| > 0 ==> segments[0].start == 0.0 && segments[|segments| - 1].end == duration
    ensures forall i :: 0 <= i < |segments| - 1 ==> segments[i + 1].start == segments[i].end
  {
    if duration <= maxDuration {
      return [filePath], [];
    }

    var count := Ceil(duration / maxDuration);
    if count <= 0 {
      return [], [];
    }
    if maxDuration > 0.0 {
      SegmentCountBounds(duration, maxDuration);
    }
    var segmentDuration := duration / count as real;
    var dir, name, ext := Dir(filePath), Name(filePath), Ext(filePath);
    outputs, segments := PlanSegments(dir, name, ext, suffix, count, segmentDuration);
    LastBoundary(duration, count);
  }
}
