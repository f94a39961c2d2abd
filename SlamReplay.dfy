/**
 * The log-replay state of the SLAM viewer widget (SlamViz).
 *
 * Two text logs drive the viewer. The pose log holds one pose per line:
 * `timestamp tx ty tz qx qy qz qw`. The landmark log holds blocks: a stamp
 * line, then one `id quality px py pz` line per landmark, then an empty line.
 * Every fourth 16 ms timer tick the viewer appends the current pose to the
 * pose trail (when it moved far enough), reads the next pose and reads the
 * next landmark block: landmarks are upserted into the active table, and
 * those older than the block's stamp are moved into the inactive table.
 *
 * Each log is a sequence of complete lines with a read cursor. The number
 * conversions (std::stod, std::stof, std::stol, and the conversion of the
 * stamp line to unsigned int) and the square root are given as functions.
 * A pose keeps its translation and rotation instead of the 4x4 matrix
 * T_WS = translate(translation) * toMat4(rotation) built from them.
 */
module SlamReplay {
  import opened Tokens
  import opened Geometry
  import opened CInt

  /** A glm::quat, in glm's constructor order (w, x, y, z). */
  datatype Quat = Quat(w: real, x: real, y: real, z: real)

  /** A pose record: the two factors of T_WS and the record's timestamp. */
  datatype Pose = Pose(translation: Vec3, rotation: Quat, timestamp: real)

  /** A landmark as stored in the active and inactive tables. */
  datatype Landmark = Landmark(point: Vec3, timestamp: real, quality: real)

  /** The landmark tables and the landmark log's read position. */
  datatype LmrkState = LmrkState(active: map<nat, Landmark>, inactive: map<nat, Landmark>, pos: nat)

  /** The current pose, the view centre (x, y, z) and the pose log's read position. */
  datatype PoseState = PoseState(pose: Pose, view: Vec3, pos: nat)

  /** The timer's clock: cur_time, last_time (milliseconds) and the light azimuth zh. */
  datatype Clock = Clock(cur: int, last: int, zh: int)

  const ScaleFactor: real := 2.0
  const TickMs: int := 16
  const StepMs: int := 64
  const ZhStart: int := 90
  /** Converting a long to unsigned long wraps modulo 2^64. */
  const ULongRange: int := 0x1_0000_0000_0000_0000

  // ----- Pose records -----

  /**
   * One pose line: the timestamp, the translation scaled by the scale factor,
   * and the quaternion stored in the file as x, y, z, w.
   */
  function ParsePose(line: string, stod: string -> real, stof: string -> real): Pose {
    Pose(Vec3(ScaleFactor * stof(Field(line, ' ', 1)),
              ScaleFactor * stof(Field(line, ' ', 2)),
              ScaleFactor * stof(Field(line, ' ', 3))),
         Quat(stof(Field(line, ' ', 7)), stof(Field(line, ' ', 4)),
              stof(Field(line, ' ', 5)), stof(Field(line, ' ', 6))),
         stod(Field(line, ' ', 0)))
  }

  /** The view centre that follows the pose: (t0, t2, -t1) when tracking, else the origin. */
  function TrackOffset(t: Vec3, poseTrack: bool): Vec3
  {
    if poseTrack then Vec3(t.x, t.z, -t.y) else Vec3(0.0, 0.0, 0.0)
  }

  /** What one readPose does to the pose state: nothing once the log is exhausted. */
  function PoseStep(s: PoseState, log: seq<string>, poseTrack: bool,
                    stod: string -> real, stof: string -> real): (r: PoseState)
    ensures s.pos <= r.pos <= s.pos + 1
    ensures s.pos <= |log| ==> r.pos <= |log|
  {
    if s.pos < |log| then
      var p := ParsePose(log[s.pos], stod, stof);
      PoseState(p, TrackOffset(p.translation, poseTrack), s.pos + 1)
    else s
  }

  /** A pose written as eight space-free fields reads back with the quaternion reordered to (w, x, y, z). */
  lemma PoseLineRoundTrip(fields: seq<string>, stod: string -> real, stof: string -> real)
    requires |fields| == 8
    requires forall j :: 0 <= j < 8 ==> ' ' !in fields[j]
    ensures ParsePose(Join(fields, ' '), stod, stof)
         == Pose(Vec3(2.0 * stof(fields[1]), 2.0 * stof(fields[2]), 2.0 * stof(fields[3])),
                 Quat(stof(fields[7]), stof(fields[4]), stof(fields[5]), stof(fields[6])),
                 stod(fields[0]))
  {
    SplitJoin(fields, ' ');
  }

  /**
   * With tracking on, the view centre after reading an eight-field line is
   * (2 tx, 2 tz, -2 ty); with tracking off it is the origin.
   */
  lemma TrackedPoseLine(s: PoseState, log: seq<string>, fields: seq<string>,
                        stod: string -> real, stof: string -> real)
    requires |fields| == 8 && s.pos < |log| && log[s.pos] == Join(fields, ' ')
    requires forall j :: 0 <= j < 8 ==> ' ' !in fields[j]
    ensures PoseStep(s, log, true, stod, stof).view
         == Vec3(2.0 * stof(fields[1]), 2.0 * stof(fields[3]), -(2.0 * stof(fields[2])))
    ensures PoseStep(s, log, false, stod, stof).view == Vec3(0.0, 0.0, 0.0)
  {
    PoseLineRoundTrip(fields, stod, stof);
  }

  /** Reading past the end of the pose log leaves pose, view centre and position as they were. */
  lemma PoseStepAtEnd(s: PoseState, log: seq<string>, poseTrack: bool,
                      stod: string -> real, stof: string -> real)
    requires s.pos >= |log|
    ensures PoseStep(s, log, poseTrack, stod, stof) == s
  {
  }

  /** Each available line is consumed exactly once: the position advances by one. */
  lemma PoseStepAdvances(s: PoseState, log: seq<string>, poseTrack: bool,
                         stod: string -> real, stof: string -> real)
    requires s.pos < |log|
    ensures var r := PoseStep(s, log, poseTrack, stod, stof);
      && r.pos == s.pos + 1
      && r.pose == ParsePose(log[s.pos], stod, stof)
      && (poseTrack ==> r.view == Vec3(r.pose.translation.x, r.pose.translation.z, -r.pose.translation.y))
      && (!poseTrack ==> r.view == Vec3(0.0, 0.0, 0.0))
  {
  }

  // ----- Landmark blocks -----

  /** The id of a landmark line: std::stol of the first field, stored as unsigned long. */
  function LmrkId(line: string, stol: string -> int): (id: nat)
    ensures id < ULongRange
  {
    stol(Field(line, ' ', 0)) % ULongRange
  }

  /** The landmark a block line describes, stamped with the block's stamp. */
  function ParseLandmark(line: string, stamp: nat, stod: string -> real, stof: string -> real): Landmark {
    Landmark(Vec3(ScaleFactor * stof(Field(line, ' ', 2)),
                  ScaleFactor * stof(Field(line, ' ', 3)),
                  ScaleFactor * stof(Field(line, ' ', 4))),
             stamp as real,
             stod(Field(line, ' ', 1)))
  }

  /** A landmark written as five space-free fields reads back field by field. */
  lemma LandmarkLineRoundTrip(fields: seq<string>, stamp: nat, stol: string -> int,
                              stod: string -> real, stof: string -> real)
    requires |fields| == 5
    requires forall j :: 0 <= j < 5 ==> ' ' !in fields[j]
    ensures LmrkId(Join(fields, ' '), stol) == stol(fields[0]) % ULongRange
    ensures ParseLandmark(Join(fields, ' '), stamp, stod, stof)
         == Landmark(Vec3(2.0 * stof(fields[2]), 2.0 * stof(fields[3]), 2.0 * stof(fields[4])),
                     stamp as real, stod(fields[1]))
  {
    SplitJoin(fields, ' ');
  }

  /**
   * The end of the block whose lines start at `start`: the first empty line,
   * or the end of the log. Once the last line has been read, std::getline
   * yields an empty line, so running out of log also ends a block.
   */
  function BlockEnd(log: seq<string>, start: nat): (e: nat)
    requires start <= |log|
    ensures start <= e <= |log|
    ensures e < |log| ==> log[e] == ""
    ensures forall k :: start <= k < e ==> log[k] != ""
    decreases |log| - start
  {
    if start == |log| || log[start] == "" then start else BlockEnd(log, start + 1)
  }

  /** The line std::getline yields at position `k`: the line itself, or an empty line past the end. */
  function LineAt(log: seq<string>, k: nat): string
    requires k <= |log|
  {
    if k < |log| then log[k] else ""
  }

  /** The read position after the line at `e` was read: one past it, or the end of the log. */
  function After(log: seq<string>, e: nat): nat
    requires e <= |log|
  {
    if e < |log| then e + 1 else e
  }

  /** The active table after upserting lines s..e-1 of the log, in order. */
  function Upsert(m: map<nat, Landmark>, log: seq<string>, s: nat, e: nat, stamp: nat,
                  stol: string -> int, stod: string -> real, stof: string -> real): map<nat, Landmark>
    requires s <= e <= |log|
    decreases e - s
  {
    if e == s then m
    else
      Upsert(m, log, s, e - 1, stamp, stol, stod, stof)
        [LmrkId(log[e - 1], stol) := ParseLandmark(log[e - 1], stamp, stod, stof)]
  }

  /** Upserting one more line is one more map update. */
  lemma UpsertNext(m: map<nat, Landmark>, log: seq<string>, s: nat, e: nat, stamp: nat,
                   stol: string -> int, stod: string -> real, stof: string -> real)
    requires s <= e < |log|
    ensures Upsert(m, log, s, e + 1, stamp, stol, stod, stof)
         == Upsert(m, log, s, e, stamp, stol, stod, stof)[LmrkId(log[e], stol) := ParseLandmark(log[e], stamp, stod, stof)]
  {
  }

  /** The landmarks at least as recent as the stamp. */
  function Active(m: map<nat, Landmark>, stamp: nat): map<nat, Landmark> {
    map id | id in m && m[id].timestamp >= stamp as real :: m[id]
  }

  /** The landmarks older than the stamp: the ones marginalized. */
  function Marginalized(m: map<nat, Landmark>, stamp: nat): map<nat, Landmark> {
    map id | id in m && m[id].timestamp < stamp as real :: m[id]
  }

  /** std::map::insert of every marginalized landmark: an entry already inactive is kept. */
  function Retire(m: map<nat, Landmark>, stamp: nat, inactive: map<nat, Landmark>): map<nat, Landmark> {
    Marginalized(m, stamp) + inactive
  }

  /** What one readLmrks does to the landmark state: nothing once the log is exhausted. */
  function LmrkStep(s: LmrkState, log: seq<string>, toStamp: string -> nat,
                    stol: string -> int, stod: string -> real, stof: string -> real): LmrkState
  {
    if s.pos < |log| then
      var stamp := toStamp(log[s.pos]);
      var e := BlockEnd(log, s.pos + 1);
      var upserted := Upsert(s.active, log, s.pos + 1, e, stamp, stol, stod, stof);
      LmrkState(Active(upserted, stamp), Retire(upserted, stamp, s.inactive), After(log, e))
    else s
  }

  /** One readLmrks within the log: the block's lines upserted, then the old ones retired. */
  lemma {:induction false} LmrkStepBlock(s: LmrkState, log: seq<string>, toStamp: string -> nat,
                      stol: string -> int, stod: string -> real, stof: string -> real)
    requires s.pos < |log|
    ensures var stamp := toStamp(log[s.pos]);
      var e := BlockEnd(log, s.pos + 1);
      var upserted := Upsert(s.active, log, s.pos + 1, e, stamp, stol, stod, stof);
      LmrkStep(s, log, toStamp, stol, stod, stof)
        == LmrkState(Active(upserted, stamp), Retire(upserted, stamp, s.inactive), After(log, e))
  {
  }

  /** Reading past the end of the landmark log leaves both tables and the position as they were. */
  lemma LmrkStepAtEnd(s: LmrkState, log: seq<string>, toStamp: string -> nat,
                      stol: string -> int, stod: string -> real, stof: string -> real)
    requires s.pos >= |log|
    ensures LmrkStep(s, log, toStamp, stol, stod, stof) == s
  {
  }

  /** The last of the lines s..e-1 that names `id`, or -1 when none does. */
  function LastWith(log: seq<string>, s: nat, e: nat, id: nat, stol: string -> int): (k: int)
    requires s <= e <= |log|
    ensures k == -1 || (s <= k < e && LmrkId(log[k], stol) == id)
    ensures k == -1 ==> forall j :: s <= j < e ==> LmrkId(log[j], stol) != id
    ensures k != -1 ==> forall j :: k < j < e ==> LmrkId(log[j], stol) != id
    decreases e - s
  {
    if e == s then -1
    else if LmrkId(log[e - 1], stol) == id then e - 1
    else LastWith(log, s, e - 1, id, stol)
  }

  /**
   * Upserting a block: an id some block line names is present with the
   * landmark of the last such line; any other id keeps its old entry, or
   * stays absent.
   */
  lemma {:induction false} UpsertLookup(m: map<nat, Landmark>, log: seq<string>, s: nat, e: nat, stamp: nat,
                                        stol: string -> int, stod: string -> real, stof: string -> real, id: nat)
    requires s <= e <= |log|
    ensures var u := Upsert(m, log, s, e, stamp, stol, stod, stof);
      var k := LastWith(log, s, e, id, stol);
      && (k == -1 ==> (id in u <==> id in m) && (id in m ==> u[id] == m[id]))
      && (k != -1 ==> id in u && u[id] == ParseLandmark(log[k], stamp, stod, stof))
    decreases e - s
  {
    if e > s && LmrkId(log[e - 1], stol) != id {
      UpsertLookup(m, log, s, e - 1, stamp, stol, stod, stof, id);
    }
  }

  /** Every landmark upserted from a block carries the block's stamp. */
  lemma {:induction false} UpsertStamped(m: map<nat, Landmark>, log: seq<string>, s: nat, e: nat, stamp: nat,
                                         stol: string -> int, stod: string -> real, stof: string -> real)
    requires s <= e <= |log|
    ensures forall k :: s <= k < e ==>
      LmrkId(log[k], stol) in Upsert(m, log, s, e, stamp, stol, stod, stof)
      && Upsert(m, log, s, e, stamp, stol, stod, stof)[LmrkId(log[k], stol)].timestamp == stamp as real
    decreases e - s
  {
    if e > s {
      UpsertStamped(m, log, s, e - 1, stamp, stol, stod, stof);
    }
  }

  /**
   * After a block is read, no active landmark is older than the stamp, and
   * every landmark of the block is active with the stamp as its timestamp.
   */
  lemma BlockStaysActive(s: LmrkState, log: seq<string>, toStamp: string -> nat,
                         stol: string -> int, stod: string -> real, stof: string -> real)
    requires s.pos < |log|
    ensures var r := LmrkStep(s, log, toStamp, stol, stod, stof);
      var stamp := toStamp(log[s.pos]);
      && (forall id :: id in r.active ==> r.active[id].timestamp >= stamp as real)
      && (forall k :: s.pos + 1 <= k < BlockEnd(log, s.pos + 1) ==>
            LmrkId(log[k], stol) in r.active && r.active[LmrkId(log[k], stol)].timestamp == stamp as real)
  {
    var stamp := toStamp(log[s.pos]);
    var e := BlockEnd(log, s.pos + 1);
    UpsertStamped(s.active, log, s.pos + 1, e, stamp, stol, stod, stof);
  }

  /**
   * Marginalization, active side: an id of the upserted table stays active
   * exactly when its landmark is at least as recent as the stamp, with the
   * same landmark, and nothing else is active.
   */
  lemma MarginalizeActive(s: LmrkState, log: seq<string>, toStamp: string -> nat,
                          stol: string -> int, stod: string -> real, stof: string -> real)
    requires s.pos < |log|
    ensures var r := LmrkStep(s, log, toStamp, stol, stod, stof);
      var stamp := toStamp(log[s.pos]);
      var u := Upsert(s.active, log, s.pos + 1, BlockEnd(log, s.pos + 1), stamp, stol, stod, stof);
      && (forall id :: id in u ==> (id in r.active <==> u[id].timestamp >= stamp as real))
      && (forall id :: id in r.active ==> id in u && r.active[id] == u[id])
  {
    var stamp := toStamp(log[s.pos]);
    var u := Upsert(s.active, log, s.pos + 1, BlockEnd(log, s.pos + 1), stamp, stol, stod, stof);
    LmrkStepBlock(s, log, toStamp, stol, stod, stof);
    assert LmrkStep(s, log, toStamp, stol, stod, stof).active == Active(u, stamp);
  }

  /**
   * Marginalization, inactive side: every id that left the active table is
   * inactive; an id that was already inactive keeps its old inactive entry;
   * an id newly made inactive takes its last active entry; the inactive table
   * gains no other ids.
   */
  lemma MarginalizeInactive(s: LmrkState, log: seq<string>, toStamp: string -> nat,
                            stol: string -> int, stod: string -> real, stof: string -> real)
    requires s.pos < |log|
    ensures var r := LmrkStep(s, log, toStamp, stol, stod, stof);
      var stamp := toStamp(log[s.pos]);
      var u := Upsert(s.active, log, s.pos + 1, BlockEnd(log, s.pos + 1), stamp, stol, stod, stof);
      && (forall id :: id in u && u[id].timestamp < stamp as real ==> id in r.inactive)
      && (forall id :: id in s.inactive ==> id in r.inactive && r.inactive[id] == s.inactive[id])
      && (forall id :: id in r.inactive && id !in s.inactive ==>
            id in u && u[id].timestamp < stamp as real && r.inactive[id] == u[id])
  {
    var stamp := toStamp(log[s.pos]);
    var u := Upsert(s.active, log, s.pos + 1, BlockEnd(log, s.pos + 1), stamp, stol, stod, stof);
    LmrkStepBlock(s, log, toStamp, stol, stod, stof);
    assert LmrkStep(s, log, toStamp, stol, stod, stof).inactive == Retire(u, stamp, s.inactive);
  }

  /** Re-observing an inactive id makes it active again without removing it from the inactive table. */
  lemma {:induction false} ReobservedStaysInactive(s: LmrkState, log: seq<string>, toStamp: string -> nat,
                                stol: string -> int, stod: string -> real, stof: string -> real, k: nat)
    requires s.pos < |log|
    requires s.pos + 1 <= k < BlockEnd(log, s.pos + 1)
    requires LmrkId(log[k], stol) in s.inactive
    ensures var r := LmrkStep(s, log, toStamp, stol, stod, stof);
      var id := LmrkId(log[k], stol);
      id in r.active && id in r.inactive && r.inactive[id] == s.inactive[id]
  {
    var stamp := toStamp(log[s.pos]);
    var e := BlockEnd(log, s.pos + 1);
    UpsertStamped(s.active, log, s.pos + 1, e, stamp, stol, stod, stof);
  }

  // ----- The pose trail -----

  /** addToPrevPoses: append when the trail is empty or the pose moved more than 0.5 from the trail's last pose. */
  function TrailStep(trail: seq<Pose>, cur: Pose): (r: seq<Pose>)
    ensures |r| >= 1 && (r == trail || r[|r| - 1] == cur)
  {
    if |trail| == 0 then [cur]
    else if Dist2(cur.translation, trail[|trail| - 1].translation) > 0.25 then trail + [cur]
    else trail
  }

  /** Consecutive poses of the trail are more than 0.5 apart. */
  predicate TrailSpaced(trail: seq<Pose>) {
    forall i :: 0 < i < |trail| ==> Dist2(trail[i - 1].translation, trail[i].translation) > 0.25
  }

  /** The trail is append-only, grows by at most one pose, and stays spaced. */
  lemma TrailStepGrows(trail: seq<Pose>, cur: Pose)
    ensures var r := TrailStep(trail, cur);
      && |trail| <= |r| <= |trail| + 1
      && r[..|trail|] == trail
      && (|r| == |trail| + 1 ==> r[|trail|] == cur)
      && (|trail| == 0 ==> r == [cur])
      && (TrailSpaced(trail) ==> TrailSpaced(r))
  {
    var r := TrailStep(trail, cur);
    if |trail| > 0 && |r| == |trail| + 1 && TrailSpaced(trail) {
      var last := trail[|trail| - 1].translation;
      assert Dist2(last, cur.translation) == Dist2(cur.translation, last) by {
        Dist2Symmetric(last, cur.translation);
      }
    }
  }

  lemma Dist2Symmetric(a: Vec3, b: Vec3)
    ensures Dist2(a, b) == Dist2(b, a)
  {
    assert (a.x - b.x) * (a.x - b.x) == (b.x - a.x) * (b.x - a.x);
    assert (a.y - b.y) * (a.y - b.y) == (b.y - a.y) * (b.y - a.y);
    assert (a.z - b.z) * (a.z - b.z) == (b.z - a.z) * (b.z - a.z);
  }

  /** A square-root function, exact over the non-negative reals. */
  ghost predicate IsSqrt(sqrt: real -> real) {
    forall r: real :: r >= 0.0 ==> sqrt(r) >= 0.0 && sqrt(r) * sqrt(r) == r
  }

  // ----- The timer -----

  /** One 16 ms timer tick: the clock after it, and whether it triggers a replay step. */
  function Tick(c: Clock): (r: (Clock, bool))
    requires 0 <= c.zh
    ensures r.0.cur == c.cur + TickMs && 0 <= r.0.zh < 360
    ensures r.1 ==> r.0.last == r.0.cur
    ensures !r.1 ==> r.0.last == c.last
  {
    var cur := c.cur + TickMs;
    var zh := Rem(c.zh + 1, 360);
    if cur - c.last >= StepMs then (Clock(cur, cur, zh), true) else (Clock(cur, c.last, zh), false)
  }

  /** The clock as the widget's constructor leaves it. */
  const StartClock := Clock(0, 0, ZhStart)

  /** The clock after n ticks from the start. */
  function Ticks(n: nat): (c: Clock)
    ensures 0 <= c.zh < 360
  {
    if n == 0 then StartClock else Tick(Ticks(n - 1)).0
  }

  /**
   * The tick schedule: after n ticks cur_time is 16n, last_time is the time of
   * the latest fourth tick, zh has advanced by n modulo 360, and tick n (counting
   * from 1) triggers a replay step exactly when n is a multiple of 4.
   */
  lemma {:induction false} TickSchedule(n: nat)
    ensures Ticks(n) == Clock(16 * n, 64 * (n / 4), (90 + n) % 360)
    ensures n >= 1 ==> (Tick(Ticks(n - 1)).1 <==> n % 4 == 0)
  {
    if n >= 1 {
      TickSchedule(n - 1);
      TickFrom(n);
    }
  }

  /** One tick from the clock after n - 1 ticks. */
  lemma TickFrom(n: nat)
    requires n >= 1
    ensures var c := Clock(16 * (n - 1), 64 * ((n - 1) / 4), (89 + n) % 360);
      Tick(c) == (Clock(16 * n, 64 * (n / 4), (90 + n) % 360), n % 4 == 0)
  {
    var q, r := (n - 1) / 4, (n - 1) % 4;
    assert n - 1 == 4 * q + r && 0 <= r < 4;
    ZhSucc(89 + n);
    if r == 3 {
      DivFour(n, q + 1, 0);
    } else {
      DivFour(n, q, r + 1);
    }
  }

  /** Quotient and remainder by 4 are determined by any pair that adds up. */
  lemma DivFour(a: nat, q: nat, r: nat)
    requires a == 4 * q + r && r < 4
    ensures a / 4 == q && a % 4 == r
  {
  }

  /** Quotient and remainder by 360 are determined by any pair that adds up. */
  lemma Div360(a: nat, q: nat, r: nat)
    requires a == 360 * q + r && r < 360
    ensures a / 360 == q && a % 360 == r
  {
  }

  /** Stepping the azimuth once more modulo 360. */
  lemma ZhSucc(a: nat)
    ensures Rem(a % 360 + 1, 360) == (a + 1) % 360
  {
    var q, r := a / 360, a % 360;
    if r == 359 {
      Div360(a + 1, q + 1, 0);
    } else {
      Div360(a + 1, q, r + 1);
    }
  }

  /** The widget's replay state. */
  class SlamViz {
    const stod: string -> real
    const stof: string -> real
    const stol: string -> int
    const toStamp: string -> nat
    const sqrt: real -> real

    const poseLog: seq<string>
    var posePos: nat
    const lmrkLog: seq<string>
    var lmrkPos: nat

    var poseTrack: bool
    var curPose: Pose
    /** The view centre x, y, z. */
    var view: Vec3
    var prevPoses: seq<Pose>
    var lmrks: map<nat, Landmark>
    var inactiveLmrks: map<nat, Landmark>

    var curTime: int
    var lastTime: int
    var zh: int

    ghost predicate Valid()
      reads this`zh, this`curTime, this`lastTime, this`prevPoses
    {
      && IsSqrt(sqrt)
      && 0 <= zh < 360
      && curTime - lastTime in {0, 16, 32, 48}
      && TrailSpaced(prevPoses)
    }

    function PoseFields(): PoseState
      reads this`curPose, this`view, this`posePos
    {
      PoseState(curPose, view, posePos)
    }

    function LmrkFields(): LmrkState
      reads this`lmrks, this`inactiveLmrks, this`lmrkPos
    {
      LmrkState(lmrks, inactiveLmrks, lmrkPos)
    }

    function ClockFields(): Clock
      reads this`curTime, this`lastTime, this`zh
    {
      Clock(curTime, lastTime, zh)
    }

    /**
     * The constructor's replay part: the logs are opened at their first line,
     * the clock is at zero with zh = 90, tracking is off, and the tables and
     * the trail are empty. `initialPose` stands for the default-constructed pose.
     */
    constructor(poseLog: seq<string>, lmrkLog: seq<string>, initialPose: Pose,
                stod: string -> real, stof: string -> real, stol: string -> int,
                toStamp: string -> nat, sqrt: real -> real)
      requires IsSqrt(sqrt)
      ensures Valid()
      ensures this.poseLog == poseLog && posePos == 0 && this.lmrkLog == lmrkLog && lmrkPos == 0
      ensures this.stod == stod && this.stof == stof && this.stol == stol
      ensures this.toStamp == toStamp && this.sqrt == sqrt
      ensures ClockFields() == StartClock
      ensures !poseTrack && curPose == initialPose && view == Vec3(0.0, 0.0, 0.0)
      ensures prevPoses == [] && lmrks == map[] && inactiveLmrks == map[]
    {
      this.stod, this.stof, this.stol, this.toStamp, this.sqrt := stod, stof, stol, toStamp, sqrt;
      this.poseLog, this.lmrkLog := poseLog, lmrkLog;
      posePos, lmrkPos := 0, 0;
      poseTrack := false;
      curPose := initialPose;
      view := Vec3(0.0, 0.0, 0.0);
      prevPoses := [];
      lmrks, inactiveLmrks := map[], map[];
      curTime, lastTime, zh := 0, 0, ZhStart;
    }

    /** togglePoseTrack: flip whether the view centre follows the pose. */
    method TogglePoseTrack()
      modifies this`poseTrack
      ensures poseTrack == !old(poseTrack)
    {
      poseTrack := !poseTrack;
    }

    /** readPose: consume the next pose line, if any, into the current pose and the view centre. */
    method ReadPose()
      modifies this`curPose, this`view, this`posePos
      ensures PoseFields() == PoseStep(old(PoseFields()), poseLog, poseTrack, stod, stof)
    {
      if posePos < |poseLog| {
        var line := poseLog[posePos];
        posePos := posePos + 1;
        var timestamp := stod(Field(line, ' ', 0));
        var translation := Vec3(ScaleFactor * stof(Field(line, ' ', 1)),
                                ScaleFactor * stof(Field(line, ' ', 2)),
                                ScaleFactor * stof(Field(line, ' ', 3)));
        var quatVals := [stof(Field(line, ' ', 4)), stof(Field(line, ' ', 5)),
                         stof(Field(line, ' ', 6)), stof(Field(line, ' ', 7))];
        var rotation := Quat(quatVals[3], quatVals[0], quatVals[1], quatVals[2]);
        curPose := Pose(translation, rotation, timestamp);
        if poseTrack {
          view := Vec3(translation.x, translation.z, -translation.y);
        } else {
          view := Vec3(0.0, 0.0, 0.0);
        }
      }
    }

    /** addToPrevPoses: extend the trail with the current pose when it moved more than 0.5. */
    method AddToPrevPoses()
      requires IsSqrt(sqrt)
      modifies this`prevPoses
      ensures prevPoses == TrailStep(old(prevPoses), curPose)
      ensures TrailSpaced(old(prevPoses)) ==> TrailSpaced(prevPoses)
    {
      TrailStepGrows(prevPoses, curPose);
      if |prevPoses| == 0 {
        prevPoses := prevPoses + [curPose];
      } else {
        var curTrans := curPose.translation;
        var prevTrans := prevPoses[|prevPoses| - 1].translation;
        var dist := sqrt(Dist2(curTrans, prevTrans));
        RootThreshold(Dist2(curTrans, prevTrans), dist);
        if dist > 0.5 {
          prevPoses := prevPoses + [curPose];
        }
      }
    }

    /**
     * readLmrks: consume the next block, if any. Its lines are upserted into
     * the active table; then every active landmark older than the stamp is
     * erased and inserted into the inactive table, in ascending id order.
     */
    method ReadLmrks()
      modifies this`lmrks, this`inactiveLmrks, this`lmrkPos
      ensures LmrkFields() == LmrkStep(old(LmrkFields()), lmrkLog, toStamp, stol, stod, stof)
    {
      ghost var s0 := LmrkFields();
      if lmrkPos < |lmrkLog| {
        var stamp := toStamp(lmrkLog[lmrkPos]);
        LmrkStepBlock(s0, lmrkLog, toStamp, stol, stod, stof);
        var upserted, end := UpsertLines(lmrks, lmrkLog, lmrkPos + 1, stamp, stol, stod, stof);
        assert upserted == Upsert(s0.active, lmrkLog, s0.pos + 1, BlockEnd(lmrkLog, s0.pos + 1),
                                  toStamp(lmrkLog[s0.pos]), stol, stod, stof);
        lmrks, lmrkPos := upserted, After(lmrkLog, end);
        Marginalize(stamp);
        assert LmrkFields() == LmrkState(Active(upserted, stamp), Retire(upserted, stamp, s0.inactive), After(lmrkLog, end));
        assert LmrkFields() == LmrkStep(s0, lmrkLog, toStamp, stol, stod, stof);
      } else {
        LmrkStepAtEnd(s0, lmrkLog, toStamp, stol, stod, stof);
        assert LmrkFields() == LmrkStep(s0, lmrkLog, toStamp, stol, stod, stof);
      }
    }

    /**
     * The marginalization step of readLmrks: collect the ids older than the
     * stamp, then move each of them to the inactive table.
     */
    method Marginalize(stamp: nat)
      modifies this`lmrks, this`inactiveLmrks
      ensures lmrks == Active(old(lmrks), stamp)
      ensures inactiveLmrks == Retire(old(lmrks), stamp, old(inactiveLmrks))
    {
      var upserted := lmrks;
      var marginalizedIds := CollectMarginalized(upserted, stamp);
      MarginalizedMembers(upserted, stamp, marginalizedIds);
      lmrks, inactiveLmrks := MoveToInactive(upserted, inactiveLmrks, stamp, marginalizedIds);
    }

    /**
     * The block loop of readLmrks, on the table and the line index: read
     * lines and upsert each of them until a line is empty. `at(id) = lmrk`
     * for a known id and `insert` for a new one both leave lmrk stored under
     * id. The loop stops at the block's end.
     */
    static method UpsertLines(m: map<nat, Landmark>, log: seq<string>, start: nat, stamp: nat,
                              stol: string -> int, stod: string -> real, stof: string -> real)
      returns (table: map<nat, Landmark>, k: nat)
      requires start <= |log|
      ensures k == BlockEnd(log, start)
      ensures table == Upsert(m, log, start, k, stamp, stol, stod, stof)
    {
      table, k := m, start;
      ghost var end := BlockEnd(log, start);
      var line := LineAt(log, k);
      while line != ""
        invariant start <= k <= end
        invariant line == LineAt(log, k)
        invariant table == Upsert(m, log, start, k, stamp, stol, stod, stof)
        decreases end - k
      {
        UpsertNext(m, log, start, k, stamp, stol, stod, stof);
        table := table[LmrkId(line, stol) := ParseLandmark(line, stamp, stod, stof)];
        k := k + 1;
        line := LineAt(log, k);
      }
    }

    /**
     * The first loop over the active table: the ids whose landmark is older
     * than the stamp, in ascending order (std::map iterates by key).
     */
    static method CollectMarginalized(m: map<nat, Landmark>, stamp: nat) returns (ids: seq<nat>)
      ensures forall i, j :: 0 <= i < j < |ids| ==> ids[i] < ids[j]
      ensures forall id :: id in ids <==> id in Marginalized(m, stamp)
    {
      ids := [];
      var unvisited := m.Keys;
      while unvisited != {}
        invariant unvisited <= m.Keys
        invariant forall i, j :: 0 <= i < j < |ids| ==> ids[i] < ids[j]
        invariant forall i, id :: 0 <= i < |ids| && id in unvisited ==> ids[i] < id
        invariant forall id :: id in ids <==> id in Marginalized(m, stamp) && id !in unvisited
        decreases unvisited
      {
        var id := Smallest(unvisited);
        if m[id].timestamp < stamp as real {
          ids := ids + [id];
        }
        unvisited := unvisited - {id};
      }
    }

    /**
     * The second loop: erase each marginalized id from the active table and
     * insert it into the inactive one. The tables are passed in and returned.
     */
    static method MoveToInactive(upserted: map<nat, Landmark>, inactive0: map<nat, Landmark>,
                                 stamp: nat, ids: seq<nat>)
      returns (active: map<nat, Landmark>, inactive: map<nat, Landmark>)
      requires forall i, j :: 0 <= i < j < |ids| ==> ids[i] < ids[j]
      requires forall id :: id in ids <==> id in upserted && upserted[id].timestamp < stamp as real
      ensures active == Active(upserted, stamp)
      ensures inactive == Retire(upserted, stamp, inactive0)
    {
      active, inactive := upserted, inactive0;
      var i := 0;
      while i < |ids|
        invariant 0 <= i <= |ids|
        invariant forall id :: id in active <==> id in upserted && id !in ids[..i]
        invariant forall id :: id in active ==> active[id] == upserted[id]
        invariant forall id :: id in inactive <==> id in inactive0 || id in ids[..i]
        invariant forall id :: id in inactive0 ==> inactive[id] == inactive0[id]
        invariant forall id :: id in inactive && id !in inactive0 ==>
          id in upserted && inactive[id] == upserted[id]
      {
        var id := ids[i];
        assert id !in ids[..i];
        var marginalized := active[id];
        active := active - {id};
        if id !in inactive {
          inactive := inactive[id := marginalized];
        }
        assert ids[..i + 1] == ids[..i] + [id];
        i := i + 1;
      }
      assert ids[..i] == ids;
      SameMap(active, Active(upserted, stamp));
      SameMap(inactive, Retire(upserted, stamp, inactive0));
    }

    /**
     * timerEvent: advance the clock by one tick; every fourth tick, extend the
     * trail with the current pose, then read the next pose, then the next block.
     */
    method TimerEvent() returns (stepped: bool)
      requires Valid()
      modifies this`curTime, this`lastTime, this`zh, this`prevPoses
      modifies this`curPose, this`view, this`posePos, this`lmrks, this`inactiveLmrks, this`lmrkPos
      ensures Valid()
      ensures (ClockFields(), stepped) == Tick(old(ClockFields()))
      ensures stepped ==>
        && prevPoses == TrailStep(old(prevPoses), old(curPose))
        && PoseFields() == PoseStep(old(PoseFields()), poseLog, poseTrack, stod, stof)
        && LmrkFields() == LmrkStep(old(LmrkFields()), lmrkLog, toStamp, stol, stod, stof)
      ensures !stepped ==>
        && prevPoses == old(prevPoses) && PoseFields() == old(PoseFields())
        && LmrkFields() == old(LmrkFields())
    {
      stepped := AdvanceClock();
      if stepped {
        AddToPrevPoses();
        ReadPose();
        ReadLmrks();
      }
    }

    /**
     * The clock part of timerEvent: cur_time advances by 16, zh by one degree
     * modulo 360, and last_time catches up when 64 ms have passed since it.
     */
    method AdvanceClock() returns (stepped: bool)
      requires 0 <= zh && curTime - lastTime in {0, 16, 32, 48}
      modifies this`curTime, this`lastTime, this`zh
      ensures (ClockFields(), stepped) == Tick(old(ClockFields()))
      ensures 0 <= zh < 360 && curTime - lastTime in {0, 16, 32, 48}
    {
      curTime := curTime + TickMs;
      zh := Rem(zh + 1, 360);
      stepped := curTime - lastTime >= StepMs;
      if stepped {
        lastTime := curTime;
      }
    }
  }

  /** Membership in the marginalized table, spelled out. */
  lemma MarginalizedMembers(m: map<nat, Landmark>, stamp: nat, ids: seq<nat>)
    requires forall id :: id in ids <==> id in Marginalized(m, stamp)
    ensures forall id :: id in ids <==> id in m && m[id].timestamp < stamp as real
  {
  }

  /** Maps with the same keys and the same value at every key are equal. */
  lemma SameMap<K, V>(a: map<K, V>, b: map<K, V>)
    requires forall k :: k in a <==> k in b
    requires forall k :: k in a ==> a[k] == b[k]
    ensures a == b
  {
  }

  /** The smallest element of a non-empty finite set of naturals. */
  method Smallest(s: set<nat>) returns (m: nat)
    requires s != {}
    ensures m in s && forall x :: x in s ==> m <= x
  {
    var rest := s;
    m :| m in rest;
    rest := rest - {m};
    while rest != {}
      invariant rest <= s && m in s
      invariant forall x :: x in s && x !in rest ==> m <= x
      decreases rest
    {
      var x :| x in rest;
      if x < m {
        m := x;
      }
      rest := rest - {x};
    }
  }
}
