/** Feature bookkeeping of the KLT tracker (vpKltOpencv): the current and previous feature
    positions, the id of each current feature and the counter that hands out fresh ids.
    Corner detection and the pyramidal optical flow are calls into OpenCV: their outputs are
    parameters of the methods that use them. */
module KltTracker {
  import opened Wrappers
  import opened Decimal

  /** An OpenCV `cv::Point2f`. */
  datatype Point2f = Point2f(x: real, y: real)

  /** One entry of the status vector written by the optical flow: 0 when the point is lost. */
  newtype UChar = v: int | 0 <= v < 256

  /** The entries of `s` from position `i` on whose status is not 0, in order: what is left of
      `s[i..]` once every lost entry has been erased. */
  function KeptFrom<T>(s: seq<T>, status: seq<UChar>, i: nat): (r: seq<T>)
    requires |s| == |status| && i <= |s|
    ensures |r| <= |s| - i
    decreases |s| - i
  {
    if i == |s| then []
    else if status[i] == 0 then KeptFrom(s, status, i + 1)
    else [s[i]] + KeptFrom(s, status, i + 1)
  }

  /** The number of entries from position `i` on that were not lost. */
  function Survivors(status: seq<UChar>, i: nat): nat
    requires i <= |status|
    decreases |status| - i
  {
    if i == |status| then 0
    else (if status[i] == 0 then 0 else 1) + Survivors(status, i + 1)
  }

  /** Pairs each entry of `a` with the entry of `b` at the same position. */
  function Zip<A, B>(a: seq<A>, b: seq<B>): (r: seq<(A, B)>)
    requires |a| == |b|
    ensures |r| == |a|
    ensures forall k :: 0 <= k < |r| ==> r[k] == (a[k], b[k])
  {
    seq(|a|, k requires 0 <= k < |a| => (a[k], b[k]))
  }

  /** Zipping two vectors after putting one entry in front of each puts their pair in front. */
  lemma ZipPrepend<A, B>(x: A, y: B, a: seq<A>, b: seq<B>)
    requires |a| == |b|
    ensures Zip([x] + a, [y] + b) == [(x, y)] + Zip(a, b)
  {
    assert forall k :: 0 <= k < |a| + 1 ==> Zip([x] + a, [y] + b)[k] == ([(x, y)] + Zip(a, b))[k];
  }

  /** Erasing the lost entries leaves as many entries as there are survivors, whatever the
      vector: points and ids filtered by the same status keep equal lengths. */
  lemma {:induction false} KeptLength<T>(s: seq<T>, status: seq<UChar>, i: nat)
    requires |s| == |status| && i <= |s|
    ensures |KeptFrom(s, status, i)| == Survivors(status, i)
    decreases |s| - i
  {
    if i < |s| {
      KeptLength(s, status, i + 1);
    }
  }

  /** Erasing lost entries from two vectors separately gives the same pairs as erasing them from
      the paired vector: every kept id stays with its own point. */
  lemma {:induction false} KeptPairs<A, B>(a: seq<A>, b: seq<B>, status: seq<UChar>, i: nat)
    requires |a| == |b| == |status| && i <= |a|
    ensures |KeptFrom(a, status, i)| == |KeptFrom(b, status, i)|
    ensures KeptFrom(Zip(a, b), status, i) == Zip(KeptFrom(a, status, i), KeptFrom(b, status, i))
    decreases |a| - i
  {
    KeptLength(a, status, i);
    KeptLength(b, status, i);
    if i < |a| {
      KeptPairs(a, b, status, i + 1);
      var za := Zip(a, b);
      if status[i] != 0 {
        assert KeptFrom(za, status, i) == [za[i]] + KeptFrom(za, status, i + 1);
        ZipPrepend(a[i], b[i], KeptFrom(a, status, i + 1), KeptFrom(b, status, i + 1));
      }
    }
  }

  /** An entry survives exactly when it sits at a position whose status is not 0. */
  lemma {:induction false} KeptMembers<T>(s: seq<T>, status: seq<UChar>, i: nat, x: T)
    requires |s| == |status| && i <= |s|
    ensures x in KeptFrom(s, status, i) <==> exists j :: i <= j < |s| && status[j] != 0 && s[j] == x
    decreases |s| - i
  {
    if i < |s| {
      KeptMembers(s, status, i + 1, x);
      var rest := KeptFrom(s, status, i + 1);
      var here := if status[i] == 0 then [] else [s[i]];
      assert KeptFrom(s, status, i) == here + rest;
      assert x in here <==> status[i] != 0 && s[i] == x;
      if exists j :: i <= j < |s| && status[j] != 0 && s[j] == x {
        var j :| i <= j < |s| && status[j] != 0 && s[j] == x;
        if j > i {
          assert x in rest;
        }
      }
    }
  }

  /** The tail of the reverse erase loop of track: walking the status vector from its last entry
      down to the first, each lost entry is erased from the previous points, the tracked points
      and the ids at the same position. */
  method RemoveLost(prev: seq<Point2f>, next: seq<Point2f>, ids: seq<int>, status: seq<UChar>)
    returns (prevKept: seq<Point2f>, nextKept: seq<Point2f>, idsKept: seq<int>)
    requires |prev| == |next| == |ids| == |status|
    ensures prevKept == KeptFrom(prev, status, 0)
    ensures nextKept == KeptFrom(next, status, 0)
    ensures idsKept == KeptFrom(ids, status, 0)
  {
    prevKept, nextKept, idsKept := prev, next, ids;
    var i := |status| - 1;
    while i >= 0
      invariant -1 <= i < |status|
      invariant prevKept == prev[..i + 1] + KeptFrom(prev, status, i + 1)
      invariant nextKept == next[..i + 1] + KeptFrom(next, status, i + 1)
      invariant idsKept == ids[..i + 1] + KeptFrom(ids, status, i + 1)
    {
      prevKept := EraseIfLost(prev, status, i, prevKept);
      nextKept := EraseIfLost(next, status, i, nextKept);
      idsKept := EraseIfLost(ids, status, i, idsKept);
      i := i - 1;
    }
    assert prev[..0] == [] && next[..0] == [] && ids[..0] == [];
  }

  /** One step of the reverse erase loop on one vector: the entry at `i` is erased when its
      status is 0. */
  method EraseIfLost<T>(s: seq<T>, status: seq<UChar>, i: nat, cur: seq<T>) returns (erased: seq<T>)
    requires |s| == |status| && i < |s|
    requires cur == s[..i + 1] + KeptFrom(s, status, i + 1)
    ensures erased == s[..i] + KeptFrom(s, status, i)
  {
    EraseStep(s, status, i, cur);
    if status[i] == 0 {
      erased := cur[..i] + cur[i + 1..];
    } else {
      erased := cur;
    }
  }

  /** One step of the erase loop: erasing position `i` when it is lost, or keeping it, extends
      the filtered suffix by one position. */
  lemma EraseStep<T>(s: seq<T>, status: seq<UChar>, i: nat, cur: seq<T>)
    requires |s| == |status| && i < |s|
    requires cur == s[..i + 1] + KeptFrom(s, status, i + 1)
    ensures status[i] == 0 ==> cur[..i] + cur[i + 1..] == s[..i] + KeptFrom(s, status, i)
    ensures status[i] != 0 ==> cur == s[..i] + KeptFrom(s, status, i)
  {
    assert s[..i + 1] == s[..i] + [s[i]];
    assert cur[..i] == s[..i];
    assert cur[i + 1..] == KeptFrom(s, status, i + 1);
  }

  /** The numbering 0, 1, ..., n-1 given to features that arrive without ids. */
  function Numbering(n: nat): (r: seq<int>)
    ensures |r| == n
    ensures forall k :: 0 <= k < n ==> r[k] == k
  {
    seq(n, k => k)
  }

  /** The message of the index check of getFeature and suppressFeature. */
  function FeatureMissing(index: int): string
  {
    "Feature [" + IntToString(index) + "] doesn't exist"
  }

  /** The KLT tracker's feature lists (`m_points[0]`, `m_points[1]`, `m_points_id`) with the
      id counter `m_next_points_id` and the initial-guess flag. */
  class KltOpencv {
    var prevPoints: seq<Point2f>
    var points: seq<Point2f>
    var ids: seq<int>
    var nextId: int
    var initialGuess: bool

    /** Every feature id is below the counter, so the next id handed out is fresh. */
    ghost predicate IdsBelowNext()
      reads this
    {
      forall k :: 0 <= k < |ids| ==> ids[k] < nextId
    }

    /** One id per current feature. */
    predicate Aligned()
      reads this
    {
      |points| == |ids|
    }

    /** The default tracker: no features, ids counted from 0, no initial guess. */
    constructor ()
      ensures prevPoints == [] && points == [] && ids == []
      ensures nextId == 0 && !initialGuess
      ensures IdsBelowNext() && Aligned()
    {
      prevPoints, points, ids := [], [], [];
      nextId := 0;
      initialGuess := false;
    }

    /** initTracking from an image: both point lists are cleared, the corners found by the
        detector (a parameter here) become the features and are numbered from 0. */
    method InitTrackingDetected(detected: seq<Point2f>)
      modifies this
      ensures prevPoints == [] && points == detected
      ensures ids == Numbering(|detected|) && nextId == |detected|
      ensures initialGuess == old(initialGuess)
      ensures IdsBelowNext() && Aligned()
    {
      prevPoints := [];
      points := detected;
      ids, nextId := NumberFromZero(|detected|);
    }

    /** initTracking with points and no ids: the points are numbered from 0. */
    method InitTracking(pts: seq<Point2f>)
      modifies this
      ensures points == pts && ids == Numbering(|pts|) && nextId == |pts|
      ensures !initialGuess && prevPoints == old(prevPoints)
      ensures IdsBelowNext() && Aligned()
    {
      initialGuess := false;
      points := pts;
      ids, nextId := NumberFromZero(|pts|);
    }

    /** initTracking with points and ids: ids of the wrong count are ignored and the points
        numbered from 0; otherwise the ids are kept and the counter is set one past the largest
        of them and 0. */
    method InitTrackingWithIds(pts: seq<Point2f>, given: seq<int>)
      modifies this
      ensures points == pts && !initialGuess && prevPoints == old(prevPoints)
      ensures |given| != |pts| ==> ids == Numbering(|pts|) && nextId == |pts|
      ensures |given| == |pts| ==> ids == given && nextId == MaxIdOrZero(given) + 1
      ensures IdsBelowNext() && Aligned()
    {
      initialGuess := false;
      points := pts;
      if |given| != |pts| {
        ids, nextId := NumberFromZero(|pts|);
      } else {
        ids, nextId := CopyIds(given);
        MaxIdBounds(given);
      }
    }

    /** addFeature without an id: the feature gets the counter's value, which is then advanced;
        when every id was below the counter, the new id differs from all the others. */
    method AddFeature(p: Point2f)
      modifies this
      ensures points == old(points) + [p] && ids == old(ids) + [old(nextId)]
      ensures nextId == old(nextId) + 1
      ensures prevPoints == old(prevPoints) && initialGuess == old(initialGuess)
      ensures old(IdsBelowNext()) ==> IdsBelowNext()
      ensures old(IdsBelowNext()) ==> forall k :: 0 <= k < |old(ids)| ==> ids[k] != ids[|ids| - 1]
      ensures old(Aligned()) ==> Aligned()
    {
      points := points + [p];
      ids := ids + [nextId];
      nextId := nextId + 1;
    }

    /** addFeature with an id: the id is stored as given (it may repeat one already present)
        and the counter is moved past it if needed. */
    method AddFeatureWithId(id: int, p: Point2f)
      modifies this
      ensures points == old(points) + [p] && ids == old(ids) + [id]
      ensures nextId == (if id >= old(nextId) then id + 1 else old(nextId))
      ensures nextId >= id + 1 && nextId >= old(nextId)
      ensures prevPoints == old(prevPoints) && initialGuess == old(initialGuess)
      ensures old(IdsBelowNext()) ==> IdsBelowNext()
      ensures old(Aligned()) ==> Aligned()
    {
      points := points + [p];
      ids := ids + [id];
      if id >= nextId {
        nextId := id + 1;
      }
    }

    /** getFeature: the id and position of the feature at `index`; an index that is negative
        (it wraps to a huge unsigned value) or past the end is rejected. */
    method GetFeature(index: int) returns (r: Result<(int, Point2f)>)
      requires 0 <= index < |points| ==> index < |ids|
      ensures r.Ok? <==> 0 <= index < |points|
      ensures r.Ok? ==> r.value.0 == ids[index] && r.value.1 == points[index]
      ensures r.Err? ==> r.error == FeatureMissing(index)
    {
      if index < 0 || index >= |points| {
        return Err(FeatureMissing(index));
      }
      r := Ok((ids[index], points[index]));
    }

    /** suppressFeature: erases the feature at `index` and its id; the same index check as
        getFeature, and nothing changes when it fails. */
    method SuppressFeature(index: int) returns (error: Option<string>)
      requires 0 <= index < |points| ==> index < |ids|
      modifies this
      ensures error.None? <==> 0 <= index < |old(points)|
      ensures error.Some? ==> error == Some(FeatureMissing(index))
      ensures error.None? ==> points == old(points)[..index] + old(points)[index + 1..]
      ensures error.None? ==> ids == old(ids)[..index] + old(ids)[index + 1..]
      ensures error.Some? ==> points == old(points) && ids == old(ids)
      ensures prevPoints == old(prevPoints) && nextId == old(nextId) && initialGuess == old(initialGuess)
      ensures old(IdsBelowNext()) ==> IdsBelowNext()
      ensures old(Aligned()) ==> Aligned()
    {
      if index < 0 || index >= |points| {
        return Some(FeatureMissing(index));
      }
      points := points[..index] + points[index + 1..];
      ids := ids[..index] + ids[index + 1..];
      error := None;
    }

    /** setInitialGuess with guesses only: they replace the current points, keeping their ids,
        and must be as many as the current points. */
    method SetInitialGuess(guess: seq<Point2f>) returns (error: Option<string>)
      modifies this
      ensures error.None? <==> |guess| == |old(points)|
      ensures error.Some? ==> error == Some("Cannot set initial guess: size feature vector [" + NatToString(|old(points)|) +
        "] and guess vector [" + NatToString(|guess|) + "] doesn't match")
      ensures error.None? ==> points == guess && initialGuess
      ensures error.Some? ==> points == old(points) && initialGuess == old(initialGuess)
      ensures prevPoints == old(prevPoints) && ids == old(ids) && nextId == old(nextId)
      ensures old(Aligned()) ==> Aligned()
    {
      if |guess| != |points| {
        return Some("Cannot set initial guess: size feature vector [" + NatToString(|points|) +
          "] and guess vector [" + NatToString(|guess|) + "] doesn't match");
      }
      points := guess;
      initialGuess := true;
      error := None;
    }

    /** setInitialGuess with initial points, guesses and ids: only the first two are compared;
        the ids are stored as given and the counter is left alone. */
    method SetInitialGuessWithIds(init: seq<Point2f>, guess: seq<Point2f>, fid: seq<int>)
      returns (error: Option<string>)
      modifies this
      ensures error.None? <==> |guess| == |init|
      ensures error.Some? ==> error == Some("Cannot set initial guess: size init vector [" + NatToString(|init|) +
        "] and guess vector [" + NatToString(|guess|) + "] doesn't match")
      ensures error.None? ==> prevPoints == init && points == guess && ids == fid && initialGuess
      ensures error.Some? ==> prevPoints == old(prevPoints) && points == old(points) && ids == old(ids)
      ensures error.Some? ==> initialGuess == old(initialGuess)
      ensures nextId == old(nextId)
    {
      if |guess| != |init| {
        return Some("Cannot set initial guess: size init vector [" + NatToString(|init|) +
          "] and guess vector [" + NatToString(|guess|) + "] doesn't match");
      }
      prevPoints := init;
      points := guess;
      ids := fid;
      initialGuess := true;
      error := None;
    }

    /** The points the optical flow starts from on the next track call: the current points,
        unless an initial guess was set, in which case the stored previous points. */
    function FlowSource(): seq<Point2f>
      reads this
    {
      if initialGuess then prevPoints else points
    }

    /** track: fails when there is no feature. Otherwise the flow starts from FlowSource(), the
        tracker (a parameter here) returns the new positions `flow` and a status per point, and
        every lost point is erased from both lists together with its id. */
    method Track(flow: seq<Point2f>, status: seq<UChar>) returns (error: Option<string>)
      requires |flow| == |status| == |FlowSource()| == |ids|
      modifies this
      ensures error.Some? <==> |old(points)| == 0
      ensures error.Some? ==> error == Some("Not enough key points to track.")
      ensures error.Some? ==> prevPoints == old(prevPoints) && points == old(points) && ids == old(ids)
      ensures error.Some? ==> initialGuess == old(initialGuess)
      ensures error.None? ==> prevPoints == KeptFrom(old(FlowSource()), status, 0)
      ensures error.None? ==> points == KeptFrom(flow, status, 0)
      ensures error.None? ==> ids == KeptFrom(old(ids), status, 0)
      ensures error.None? ==> !initialGuess && Aligned() && |prevPoints| == |points|
      ensures nextId == old(nextId)
      ensures old(IdsBelowNext()) ==> IdsBelowNext()
    {
      if |points| == 0 {
        return Some("Not enough key points to track.");
      }
      var source := FlowSource();
      initialGuess := false;
      var p0, p1, kept := RemoveLost(source, flow, ids, status);
      KeptLength(source, status, 0);
      KeptLength(flow, status, 0);
      KeptLength(ids, status, 0);
      if IdsBelowNext() {
        forall k | 0 <= k < |kept|
          ensures kept[k] < nextId
        {
          assert kept[k] in KeptFrom(ids, status, 0);
          KeptMembers(ids, status, 0, kept[k]);
        }
      }
      prevPoints, points, ids := p0, p1, kept;
      error := None;
    }
  }

  /** The numbering loop shared by the initTracking overloads: the counter starts at 0 and each
      point takes its value before it is advanced. */
  method NumberFromZero(n: nat) returns (numbered: seq<int>, next: int)
    ensures numbered == Numbering(n) && next == n
  {
    next := 0;
    numbered := [];
    var i := 0;
    while i < n
      invariant 0 <= i <= n
      invariant next == i && numbered == Numbering(i)
    {
      numbered := numbered + [next];
      next := next + 1;
      i := i + 1;
    }
  }

  /** The copy loop of initTracking with ids: the ids are copied one by one while their
      maximum, starting from 0, is kept; the counter is set one past it. */
  method CopyIds(given: seq<int>) returns (copied: seq<int>, next: int)
    ensures copied == given && next == MaxIdOrZero(given) + 1
  {
    var max := 0;
    copied := [];
    var i := 0;
    while i < |given|
      invariant 0 <= i <= |given|
      invariant copied == given[..i]
      invariant max == MaxIdOrZero(given[..i])
    {
      assert given[..i + 1][..i] == given[..i];
      copied := copied + [given[i]];
      if given[i] > max {
        max := given[i];
      }
      i := i + 1;
    }
    assert given[..i] == given;
    next := max + 1;
  }

  /** max(0, largest id): the value the counter is set one past. */
  function MaxIdOrZero(s: seq<int>): (m: int)
    ensures m >= 0
    decreases |s|
  {
    if |s| == 0 then 0
    else
      var rest := MaxIdOrZero(s[..|s| - 1]);
      if s[|s| - 1] > rest then s[|s| - 1] else rest
  }

  /** MaxIdOrZero bounds every id, and is 0 or one of them. */
  lemma {:induction false} MaxIdBounds(s: seq<int>)
    ensures forall k :: 0 <= k < |s| ==> s[k] <= MaxIdOrZero(s)
    ensures MaxIdOrZero(s) == 0 || MaxIdOrZero(s) in s
    decreases |s|
  {
    if |s| > 0 {
      var init := s[..|s| - 1];
      MaxIdBounds(init);
      assert forall k :: 0 <= k < |init| ==> s[k] == init[k];
    }
  }
}
