/**
 * The greedy segment selection of `download_segment` (script.py:27-57) as
 * specification functions over the listing, with the properties the loop
 * promises: a size budget, an in-order prefix, first-fit-stop, and the
 * earliest/latest modification time of what was admitted.
 */
module Segments {
  import opened Wrappers

  /** `LastModified` is only compared, so any totally ordered value will do. */
  type Timestamp = int

  /** One entry of the S3 listing: an object's `Key`, `Size` and `LastModified`. */
  datatype ObjectRecord = ObjectRecord(key: string, size: nat, lastModified: Timestamp)

  /** The two-slot `date_range` list: earliest and latest time seen, `None` before the first file. */
  datatype DateRange = DateRange(earliest: Option<Timestamp>, latest: Option<Timestamp>)

  function TotalSize(s: seq<ObjectRecord>): nat
  {
    if s == [] then 0 else s[0].size + TotalSize(s[1..])
  }

  lemma {:induction false} TotalSizeAppend(a: seq<ObjectRecord>, b: seq<ObjectRecord>)
    ensures TotalSize(a + b) == TotalSize(a) + TotalSize(b)
    decreases |a|
  {
    if a == [] {
      assert a + b == b;
    } else {
      assert (a + b)[1..] == a[1..] + b;
      TotalSizeAppend(a[1..], b);
    }
  }

  lemma {:induction false} SizeBelowTotal(s: seq<ObjectRecord>, i: nat)
    requires i < |s|
    ensures s[i].size <= TotalSize(s)
    decreases i
  {
    if i > 0 {
      SizeBelowTotal(s[1..], i - 1);
    }
  }

  /**
   * How many files of `files` the loop admits when `used` bytes are already in
   * the segment: it stops at the first file that would take the total past
   * `target` (script.py:38-39) and never looks further.
   */
  function AdmitFrom(files: seq<ObjectRecord>, used: nat, target: nat): (n: nat)
    ensures n <= |files|
  {
    if files == [] || used + files[0].size > target then 0
    else 1 + AdmitFrom(files[1..], used + files[0].size, target)
  }

  /**
   * The admission count is pinned down by where the loop stops: if the first
   * `i` files fit on top of `used` and the next one (if any) would not, then
   * exactly `i` files are admitted.
   */
  lemma {:induction false} AdmitFromExact(files: seq<ObjectRecord>, used: nat, target: nat, i: nat)
    requires i <= |files|
    requires used + TotalSize(files[..i]) <= target
    requires i < |files| ==> used + TotalSize(files[..i]) + files[i].size > target
    ensures AdmitFrom(files, used, target) == i
    decreases i
  {
    if i == 0 {
      assert files[..i] == [];
    } else {
      assert files[..i][1..] == files[1..][..i - 1];
      assert i - 1 < |files[1..]| ==> files[1..][i - 1] == files[i];
      AdmitFromExact(files[1..], used + files[0].size, target, i - 1);
    }
  }

  /** The files `download_segment` admits, starting from an empty segment. */
  function Select(files: seq<ObjectRecord>, target: nat): seq<ObjectRecord>
  {
    files[..AdmitFrom(files, 0, target)]
  }

  lemma {:induction false} AdmitFromStops(files: seq<ObjectRecord>, used: nat, target: nat)
    requires used <= target
    ensures var n := AdmitFrom(files, used, target);
      && used + TotalSize(files[..n]) <= target
      && (n < |files| ==> used + TotalSize(files[..n]) + files[n].size > target)
    decreases |files|
  {
    var n := AdmitFrom(files, used, target);
    if n == 0 {
      assert files[..n] == [];
    } else {
      var used' := used + files[0].size;
      AdmitFromStops(files[1..], used', target);
      assert files[..n][1..] == files[1..][..n - 1];
    }
  }

  /**
   * The segment is a prefix of the listing, in listing order, within the
   * budget; if it stops short, the next file would have overflowed the budget,
   * and it is empty exactly when the listing is empty or its first file alone
   * is over budget.
   */
  lemma SelectIsGreedyPrefix(files: seq<ObjectRecord>, target: nat)
    ensures var seg := Select(files, target);
      && |seg| <= |files| && seg == files[..|seg|]
      && TotalSize(seg) <= target
      && (|seg| < |files| ==> TotalSize(seg) + files[|seg|].size > target)
      && (seg == [] <==> files == [] || files[0].size > target)
  {
    AdmitFromStops(files, 0, target);
  }

  /** The update of `date_range` for one admitted file (script.py:51-54). */
  function Widen(r: DateRange, t: Timestamp): DateRange
  {
    DateRange(
      if r.earliest.None? || t < r.earliest.value then Some(t) else r.earliest,
      if r.latest.None? || t > r.latest.value then Some(t) else r.latest)
  }

  /** `date_range` after admitting the files of `s` one by one, in order. */
  function RangeOf(s: seq<ObjectRecord>): DateRange
  {
    if s == [] then DateRange(None, None)
    else Widen(RangeOf(s[..|s| - 1]), s[|s| - 1].lastModified)
  }

  /**
   * The range is unset exactly for an empty segment; otherwise its two ends
   * are the minimum and the maximum `LastModified` of the admitted files, each
   * taken by some file.
   */
  lemma {:induction false} RangeOfIsMinMax(s: seq<ObjectRecord>)
    ensures RangeOf(s).earliest.None? <==> s == []
    ensures RangeOf(s).latest.None? <==> s == []
    ensures s != [] ==>
      forall i :: 0 <= i < |s| ==>
        RangeOf(s).earliest.value <= s[i].lastModified <= RangeOf(s).latest.value
    ensures s != [] ==> exists i :: 0 <= i < |s| && s[i].lastModified == RangeOf(s).earliest.value
    ensures s != [] ==> exists i :: 0 <= i < |s| && s[i].lastModified == RangeOf(s).latest.value
    decreases |s|
  {
    if s != [] {
      var init := s[..|s| - 1];
      var last := |s| - 1;
      RangeOfIsMinMax(init);
      var r := RangeOf(s);
      forall i | 0 <= i < |s|
        ensures r.earliest.value <= s[i].lastModified <= r.latest.value
      {
        if i < last {
          assert s[i] == init[i];
        }
      }
      if init == [] {
        assert s[last].lastModified == r.earliest.value;
        assert s[last].lastModified == r.latest.value;
      } else {
        var lo :| 0 <= lo < |init| && init[lo].lastModified == RangeOf(init).earliest.value;
        var hi :| 0 <= hi < |init| && init[hi].lastModified == RangeOf(init).latest.value;
        assert s[lo] == init[lo] && s[hi] == init[hi];
        if s[last].lastModified < RangeOf(init).earliest.value {
          assert s[last].lastModified == r.earliest.value;
        } else {
          assert s[lo].lastModified == r.earliest.value;
        }
        if s[last].lastModified > RangeOf(init).latest.value {
          assert s[last].lastModified == r.latest.value;
        } else {
          assert s[hi].lastModified == r.latest.value;
        }
      }
    }
  }
}
