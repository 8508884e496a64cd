/**
 * The `while files:` loop of `main` (script.py:101-122) as a specification
 * function: the sequence of segments it processes, and what part of the
 * listing those segments cover.
 */
module Orchestration {
  import opened Segments
  import opened Sequences

  /**
   * The segments `main` processes, in order: each is the greedy selection from
   * what is left, which then loses that many files from its front; the loop
   * ends when nothing is left or a selection comes back empty.
   */
  function Schedule(files: seq<ObjectRecord>, target: nat): seq<seq<ObjectRecord>>
    decreases |files|
  {
    if files == [] then []
    else
      var seg := Select(files, target);
      if seg == [] then [] else [seg] + Schedule(files[|seg|..], target)
  }

  /** One pass of the loop: the schedule of a non-empty listing starts with its greedy selection, if that is non-empty. */
  lemma ScheduleStep(files: seq<ObjectRecord>, target: nat)
    requires files != []
    ensures var seg := Select(files, target);
      && (seg == [] ==> Schedule(files, target) == [])
      && (seg != [] ==> Schedule(files, target) == [seg] + Schedule(files[|seg|..], target))
      && (seg != [] ==> Flatten(Schedule(files, target)) == seg + Flatten(Schedule(files[|seg|..], target)))
  {
    var seg := Select(files, target);
    if seg != [] {
      var rest := Schedule(files[|seg|..], target);
      assert ([seg] + rest)[0] == seg;
      assert ([seg] + rest)[1..] == rest;
    }
  }

  /**
   * The loop of `main` after the segments `done`, which cover `processed`,
   * and before `files`: taking the next non-empty selection moves it from the
   * front of `files` to the end of `processed` and of `done`; an empty
   * selection means `done` is the whole schedule.
   */
  lemma ScheduleAdvance(listing: seq<ObjectRecord>, done: seq<seq<ObjectRecord>>, processed: seq<ObjectRecord>,
                        files: seq<ObjectRecord>, target: nat)
    requires files != []
    requires listing == processed + files
    requires Schedule(listing, target) == done + Schedule(files, target)
    ensures var seg := Select(files, target);
      && (seg == [] ==> Schedule(listing, target) == done)
      && (seg != [] ==>
            && listing == (processed + seg) + files[|seg|..]
            && Schedule(listing, target) == (done + [seg]) + Schedule(files[|seg|..], target))
  {
    var seg := Select(files, target);
    ScheduleStep(files, target);
    if seg == [] {
      assert done + [] == done;
    } else {
      var rest := files[|seg|..];
      assert files == seg + rest by {
        SelectIsGreedyPrefix(files, target);
      }
      AppendAssoc(processed, seg, rest);
      AppendAssoc(done, [seg], Schedule(rest, target));
    }
  }

  /** The index of the first file that alone exceeds the budget, or the length of the listing. */
  function FirstOversize(files: seq<ObjectRecord>, target: nat): (k: nat)
    ensures k <= |files|
  {
    if files == [] || files[0].size > target then 0
    else 1 + FirstOversize(files[1..], target)
  }

  lemma {:induction false} FirstOversizeIsFirst(files: seq<ObjectRecord>, target: nat)
    ensures forall i :: 0 <= i < FirstOversize(files, target) ==> files[i].size <= target
    ensures FirstOversize(files, target) < |files| ==> files[FirstOversize(files, target)].size > target
    decreases |files|
  {
    if files != [] && files[0].size <= target {
      FirstOversizeIsFirst(files[1..], target);
      forall i | 0 < i < FirstOversize(files, target)
        ensures files[i].size <= target
      {
        assert files[i] == files[1..][i - 1];
      }
    }
  }

  lemma {:induction false} FirstOversizeSkip(files: seq<ObjectRecord>, target: nat, n: nat)
    requires n <= |files|
    requires forall i :: 0 <= i < n ==> files[i].size <= target
    ensures FirstOversize(files, target) == n + FirstOversize(files[n..], target)
    decreases n
  {
    if n > 0 {
      assert files[1..][n - 1..] == files[n..];
      FirstOversizeSkip(files[1..], target, n - 1);
    }
  }

  /**
   * Every processed segment is non-empty and within the budget.
   */
  lemma {:induction false} ScheduleSegmentsAreBounded(files: seq<ObjectRecord>, target: nat)
    ensures forall k :: 0 <= k < |Schedule(files, target)| ==>
      Schedule(files, target)[k] != [] && TotalSize(Schedule(files, target)[k]) <= target
    decreases |files|
  {
    if files != [] {
      var seg := Select(files, target);
      SelectIsGreedyPrefix(files, target);
      if seg != [] {
        ScheduleSegmentsAreBounded(files[|seg|..], target);
      }
    }
  }

  /** Every file of a selection fits the budget on its own. */
  lemma SelectedFilesFit(files: seq<ObjectRecord>, target: nat)
    ensures forall i :: 0 <= i < |Select(files, target)| ==> files[i].size <= target
  {
    var seg := Select(files, target);
    SelectIsGreedyPrefix(files, target);
    forall i | 0 <= i < |seg|
      ensures files[i].size <= target
    {
      SizeBelowTotal(seg, i);
    }
  }

  /**
   * The processed segments, laid end to end, are exactly the listing up to
   * (and not including) the first file that alone exceeds the budget.
   */
  lemma {:induction false} ScheduleCoversPrefix(files: seq<ObjectRecord>, target: nat)
    ensures Flatten(Schedule(files, target)) == files[..FirstOversize(files, target)]
    decreases |files|
  {
    if files == [] {
      return;
    }
    var seg := Select(files, target);
    SelectIsGreedyPrefix(files, target);
    if seg == [] {
      assert files[..FirstOversize(files, target)] == [];
      return;
    }
    var n := |seg|;
    var rest := files[n..];
    assert FirstOversize(files, target) == n + FirstOversize(rest, target) by {
      SelectedFilesFit(files, target);
      FirstOversizeSkip(files, target, n);
    }
    ScheduleCoversPrefix(rest, target);
    calc {
      Flatten(Schedule(files, target));
      { ScheduleStep(files, target); }
      seg + Flatten(Schedule(rest, target));
      files[..n] + rest[..FirstOversize(rest, target)];
      { assert files[..n] + rest[..FirstOversize(rest, target)] == files[..n + FirstOversize(rest, target)]; }
      files[..FirstOversize(files, target)];
    }
  }

  /** The loop processes the whole listing exactly when no single file exceeds the budget. */
  lemma ScheduleCoversAll(files: seq<ObjectRecord>, target: nat)
    ensures Flatten(Schedule(files, target)) == files
        <==> forall i :: 0 <= i < |files| ==> files[i].size <= target
  {
    ScheduleCoversPrefix(files, target);
    FirstOversizeIsFirst(files, target);
    if Flatten(Schedule(files, target)) == files {
      assert |files[..FirstOversize(files, target)]| == |files|;
    }
  }
}
