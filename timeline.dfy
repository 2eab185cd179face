/**
 * The timeline slider (components/TimelineSlider.tsx): the candidate instants around `now`,
 * the mapping of the selected start and end dates to slider positions, and the mapping of
 * slider positions back to dates. Instants are integer milliseconds; the calendar formatting
 * that buckets an instant (an hour or a day of local time) is the parameter `key`.
 */
module Timeline {

  type Instant = int

  datatype Resolution = Hourly | Daily
  datatype Mode = Single | Range

  const MsPerHour: int := 3_600_000
  const MsPerDay: int := 24 * MsPerHour

  /** How many candidates each resolution offers: 30 days of hours, or 30 days. */
  function CandidateCount(res: Resolution): nat
  {
    if res == Hourly then 30 * 24 else 30
  }

  /** The index of `now` among the candidates: 15 days back. */
  function NowIndex(res: Resolution): nat
  {
    if res == Hourly then 15 * 24 else 15
  }

  /** The distance between two consecutive candidates. */
  function Step(res: Resolution): int
  {
    if res == Hourly then MsPerHour else MsPerDay
  }

  /** `data`: candidate i is `now` moved by `i - NowIndex` steps. */
  function Candidates(res: Resolution, now: Instant): (r: seq<Instant>)
    ensures |r| == CandidateCount(res) && NowIndex(res) < |r| && r[NowIndex(res)] == now
  {
    seq(CandidateCount(res), i => now + (i - NowIndex(res)) * Step(res))
  }

  /** 720 hourly candidates, 30 daily ones. */
  lemma CandidateCounts(now: Instant)
    ensures |Candidates(Hourly, now)| == 720
    ensures |Candidates(Daily, now)| == 30
  {
  }

  /**
   * Both resolutions start 15 days before `now`, hit `now` exactly, and every candidate is one
   * step after the previous one, so the candidates are strictly increasing.
   */
  lemma CandidatesLayout(res: Resolution, now: Instant)
    ensures Candidates(res, now)[0] == now - 15 * MsPerDay
    ensures Candidates(res, now)[NowIndex(res)] == now
    ensures forall i :: 0 < i < |Candidates(res, now)| ==>
      Candidates(res, now)[i] == Candidates(res, now)[i - 1] + Step(res)
    ensures forall i, j :: 0 <= i < j < |Candidates(res, now)| ==>
      Candidates(res, now)[i] < Candidates(res, now)[j]
  {
    var data := Candidates(res, now);
    forall i, j | 0 <= i < j < |data| ensures data[i] < data[j] {
      MulStrict(i - NowIndex(res), j - NowIndex(res), Step(res));
    }
  }

  /** Strict monotonicity of a product, spelled out so the ordering proof needs no nonlinear search. */
  lemma MulStrict(a: int, b: int, s: int)
    requires a < b && s > 0
    ensures a * s < b * s
  {
    assert b * s - a * s == (b - a) * s;
    MulMonotone(b - a, s);
  }

  /** Position `i` is the first candidate whose bucket is the bucket of `target`. */
  ghost predicate FirstMatch<K>(data: seq<Instant>, target: Instant, key: Instant -> K, i: int)
  {
    0 <= i < |data| && key(data[i]) == key(target) &&
    forall j :: 0 <= j < i ==> key(data[j]) != key(target)
  }

  /** Some candidate shares the bucket of `target`. */
  ghost predicate HasMatch<K>(data: seq<Instant>, target: Instant, key: Instant -> K)
  {
    exists j :: 0 <= j < |data| && key(data[j]) == key(target)
  }

  /** `data.findIndex(d => key(d) === key(target))`: the first matching position, or -1. */
  function FindIndex<K(==)>(data: seq<Instant>, target: Instant, key: Instant -> K): (r: int)
    ensures -1 <= r < |data|
    ensures r == -1 <==> !HasMatch(data, target, key)
    ensures r != -1 ==> FirstMatch(data, target, key, r)
    decreases |data|
  {
    if |data| == 0 then -1
    else if key(data[0]) == key(target) then 0
    else
      var r := FindIndex(data[1..], target, key);
      assert forall j :: 0 < j < |data| ==> data[j] == data[1..][j - 1];
      if r == -1 then -1 else r + 1
  }

  /**
   * `value`: the slider positions for the current selection. Single mode shows the end date
   * alone, falling back to the last position; range mode shows start (falling back to 0)
   * and end (falling back to the last position).
   */
  function SliderValue<K(==)>(data: seq<Instant>, mode: Mode, startDate: Instant, endDate: Instant,
                              key: Instant -> K): (v: seq<int>)
    ensures |v| == if mode == Single then 1 else 2
    ensures |data| > 0 ==> forall k :: 0 <= k < |v| ==> 0 <= v[k] < |data|
    ensures HasMatch(data, endDate, key) ==> FirstMatch(data, endDate, key, v[|v| - 1])
    ensures !HasMatch(data, endDate, key) ==> v[|v| - 1] == |data| - 1
    ensures mode == Range && HasMatch(data, startDate, key) ==> FirstMatch(data, startDate, key, v[0])
    ensures mode == Range && !HasMatch(data, startDate, key) ==> v[0] == 0
  {
    if mode == Single then
      var idx := FindIndex(data, endDate, key);
      [if idx != -1 then idx else |data| - 1]
    else
      var startIdx := FindIndex(data, startDate, key);
      var endIdx := FindIndex(data, endDate, key);
      [if startIdx != -1 then startIdx else 0, if endIdx != -1 then endIdx else |data| - 1]
  }

  /** Slider positions the widget may report: one per thumb of the mode, each within the data. */
  predicate PositionsFit(data: seq<Instant>, mode: Mode, positions: seq<int>)
  {
    |positions| >= (if mode == Single then 1 else 2) &&
    forall k :: 0 <= k < |positions| ==> 0 <= positions[k] < |data|
  }

  /** `handleValueChange`: the (start, end) dates selected by the slider positions. */
  function Selection(data: seq<Instant>, mode: Mode, positions: seq<int>): (sel: (Instant, Instant))
    requires PositionsFit(data, mode, positions)
    ensures mode == Single ==> sel.0 == sel.1 == data[positions[0]]
    ensures mode == Range ==> sel == (data[positions[0]], data[positions[1]])
  {
    if mode == Single then
      var selected := data[positions[0]];
      (selected, selected)
    else
      (data[positions[0]], data[positions[1]])
  }

  /** No two candidates fall in the same bucket. */
  ghost predicate BucketsDistinct<K>(data: seq<Instant>, key: Instant -> K)
  {
    forall i, j :: 0 <= i < j < |data| ==> key(data[i]) != key(data[j])
  }

  /**
   * Moving the slider and mapping the new selection back to positions lands on a position in
   * the same bucket at or before each chosen one; when buckets are distinct it lands exactly
   * on the chosen positions.
   */
  lemma SelectionRoundTrip<K>(data: seq<Instant>, mode: Mode, positions: seq<int>, key: Instant -> K)
    requires PositionsFit(data, mode, positions)
    ensures var sel := Selection(data, mode, positions);
            var v := SliderValue(data, mode, sel.0, sel.1, key);
            forall k :: 0 <= k < |v| ==> v[k] <= positions[k] && key(data[v[k]]) == key(data[positions[k]])
    ensures BucketsDistinct(data, key) ==>
            var sel := Selection(data, mode, positions);
            SliderValue(data, mode, sel.0, sel.1, key) == positions[..|SliderValue(data, mode, sel.0, sel.1, key)|]
  {
    var sel := Selection(data, mode, positions);
    var v := SliderValue(data, mode, sel.0, sel.1, key);
    assert HasMatch(data, sel.1, key) by {
      var last := if mode == Single then positions[0] else positions[1];
      assert key(data[last]) == key(sel.1);
    }
    if mode == Range {
      assert HasMatch(data, sel.0, key) by { assert key(data[positions[0]]) == key(sel.0); }
    }
    forall k | 0 <= k < |v| ensures v[k] <= positions[k] && key(data[v[k]]) == key(data[positions[k]]) {
      assert key(data[positions[k]]) == key(if k == 0 then sel.0 else sel.1);
    }
  }

  /** The slider reports one position per thumb. */
  lemma ValueShape<K>(data: seq<Instant>, mode: Mode, startDate: Instant, endDate: Instant, key: Instant -> K)
    requires |data| > 0
    ensures PositionsFit(data, mode, SliderValue(data, mode, startDate, endDate, key))
  {
  }

  /**
   * With the bucket of an instant taken as the whole number of steps since the epoch, shifted by
   * a fixed UTC offset in milliseconds (hours or days of a zone without daylight-saving changes),
   * no two candidates share a bucket.
   */
  lemma StepBucketsDistinct(res: Resolution, now: Instant, offset: int)
    ensures BucketsDistinct(Candidates(res, now), (t: Instant) => (t + offset) / Step(res))
  {
    var data := Candidates(res, now);
    var s := Step(res);
    forall i | 0 <= i < |data| ensures (data[i] + offset) / s == (now + offset) / s + (i - NowIndex(res)) {
      assert data[i] + offset == now + offset + (i - NowIndex(res)) * s;
      ShiftDiv(now + offset, i - NowIndex(res), s);
    }
  }

  lemma ShiftDiv(a: int, k: int, s: int)
    requires s > 0
    ensures (a + k * s) / s == a / s + k
  {
    var q, r := a / s, a % s;
    assert a + k * s == (q + k) * s + r;
    DivUnique(a + k * s, s, q + k, r);
  }

  /** Euclidean division has one quotient and one remainder. */
  lemma DivUnique(x: int, s: int, q: int, r: int)
    requires s > 0 && 0 <= r < s && x == q * s + r
    ensures x / s == q
  {
    var q0, r0 := x / s, x % s;
    assert (q - q0) * s == r0 - r;
    if q > q0 {
      assert (q - q0) * s >= s by { MulMonotone(q - q0, s); }
    } else if q < q0 {
      assert (q0 - q) * s >= s by { MulMonotone(q0 - q, s); }
    }
  }

  lemma MulMonotone(d: int, s: int)
    requires d >= 1 && s > 0
    ensures d * s >= s
  {
  }

  /** `setMode(mode === "single" ? "range" : "single")` */
  function Toggled(mode: Mode): (m: Mode)
    ensures m != mode
  {
    if mode == Single then Range else Single
  }

  /** Toggling twice restores the mode. */
  lemma ToggleTwice(mode: Mode)
    ensures Toggled(Toggled(mode)) == mode
  {
  }

  /**
   * The slider's state: its mode, the resolution and `now` its candidates were last built
   * from, the candidates themselves, and the selected start and end dates.
   */
  class TimelineSlider {
    var mode: Mode
    var resolution: Resolution
    var builtAt: Instant
    var data: seq<Instant>
    var startDate: Instant
    var endDate: Instant

    ghost predicate Valid()
      reads this
    {
      data == Candidates(resolution, builtAt)
    }

    constructor (resolution: Resolution, now: Instant, startDate: Instant, endDate: Instant)
      ensures Valid()
      ensures this.mode == Single && this.resolution == resolution && this.builtAt == now
      ensures this.startDate == startDate && this.endDate == endDate
    {
      this.mode := Single;
      this.resolution := resolution;
      this.builtAt := now;
      this.data := Candidates(resolution, now);
      this.startDate := startDate;
      this.endDate := endDate;
    }

    /** The candidates are rebuilt from the current time only when the resolution changes. */
    method SetResolution(res: Resolution, now: Instant)
      requires Valid()
      modifies this
      ensures Valid()
      ensures resolution == res
      ensures builtAt == if res == old(resolution) then old(builtAt) else now
      ensures mode == old(mode) && startDate == old(startDate) && endDate == old(endDate)
    {
      if res != resolution {
        resolution := res;
        builtAt := now;
        data := Candidates(res, now);
      }
    }

    method ToggleMode()
      requires Valid()
      modifies this
      ensures Valid()
      ensures mode == Toggled(old(mode))
      ensures resolution == old(resolution) && builtAt == old(builtAt) && data == old(data)
      ensures startDate == old(startDate) && endDate == old(endDate)
    {
      mode := Toggled(mode);
    }

    /**
     * `handleValueChange`, step by step as at lines 68-77 of the component; `Selection` is the
     * pair of dates it must reach.
     */
    method HandleValueChange(positions: seq<int>)
      requires Valid()
      requires PositionsFit(data, mode, positions)
      modifies this
      ensures Valid()
      ensures mode == old(mode) && resolution == old(resolution) && builtAt == old(builtAt) && data == old(data)
      ensures (startDate, endDate) == Selection(data, mode, positions)
      ensures mode == Single ==> startDate == endDate
    {
      if mode == Single {
        var selected := data[positions[0]];
        startDate := selected;
        endDate := selected;
      } else {
        startDate := data[positions[0]];
        endDate := data[positions[1]];
      }
    }
  }
}
