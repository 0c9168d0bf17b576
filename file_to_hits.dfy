/** The per-event extractor of `orcasong/file_to_hits.py`: from one decoded event
    record it builds the hit matrix (one row per hit) and the track vector (event
    id, run id and the truth information of the simulated particle). */
module FileToHits {
  import opened Wrappers
  import opened Seqs

  /** One entry of a float64 output array: a finite value or NaN. */
  datatype Float = Finite(v: real) | NaN

  /** One row of a hit table. In a table that is not calibrated the three
      position fields carry no meaning (the table has no `pos_x` column). */
  datatype Hit = Hit(posX: real, posY: real, posZ: real, time: real, triggered: int, channelId: int)

  /** A hit table and whether it already holds calibrated positions. */
  datatype HitTable = HitTable(calibrated: bool, hits: seq<Hit>)

  /** One row of the simulated-track table `McTracks`. */
  datatype McTrack = McTrack(
    particleType: int, energy: real, isCc: real, bjorkeny: real,
    dirX: real, dirY: real, dirZ: real, time: real,
    posX: real, posY: real, posZ: real)

  /** The parts of an event record the extractor reads: the `EventInfo` event
      id column, the run id of `Header` when that table is present, the rows of
      `RawHeader`, the two hit tables and the track table. */
  datatype EventBlob = EventBlob(
    eventIds: seq<int>, header: Option<int>, rawHeader: seq<seq<int>>,
    hits: HitTable, mcHits: HitTable, mcTracks: seq<McTrack>)

  /** The calibration service: turns the hits of a raw table into calibrated hits. */
  type Calibration = seq<Hit> -> seq<Hit>

  /** The energy-weighted muon vertex, computed outside this model. */
  type VertexAverage = seq<McTrack> -> (real, real, real)

  /** The Python exceptions the extractor can raise, by their cause. */
  datatype ExtractError =
    | NoCalibration          // the blob needs calibrating and no geometry was given
    | NoPositions            // the selected table has no position columns
    | MissingEventId         // `EventInfo.event_id` is empty
    | MissingRunId           // no `Header` and `RawHeader[0][0]` does not exist
    | MissingMuonTrack       // a muon file whose `McTracks` has no row 1
    | NoPrimaryTrack         // no track with non-zero Bjorken-y
    | UnknownParticleType(name: string)

  // ---------------------------------------------------------------------------
  // Primary track

  /** `p` is the lowest index of a track with non-zero Bjorken-y. */
  ghost predicate IsPrimary(tracks: seq<McTrack>, p: nat)
  {
    p < |tracks| && tracks[p].bjorkeny != 0.0 &&
    forall j :: 0 <= j < p ==> tracks[j].bjorkeny == 0.0
  }

  /** `get_primary_track_index`: the first track whose Bjorken-y is non-zero;
      `None` stands for the IndexError raised when there is none. */
  function PrimaryTrackIndex(tracks: seq<McTrack>): (r: Option<nat>)
    ensures r.Some? <==> exists i :: 0 <= i < |tracks| && tracks[i].bjorkeny != 0.0
    ensures r.Some? ==> IsPrimary(tracks, r.value)
    decreases |tracks|
  {
    if |tracks| == 0 then None
    else if tracks[0].bjorkeny != 0.0 then Some(0)
    else
      match PrimaryTrackIndex(tracks[1..])
      case None => None
      case Some(i) =>
        assert forall j :: 0 < j < i + 1 ==> tracks[j] == tracks[1..][j - 1];
        Some(i + 1)
  }

  /** There is at most one primary index. */
  lemma PrimaryIsUnique(tracks: seq<McTrack>, p: nat, q: nat)
    requires IsPrimary(tracks, p) && IsPrimary(tracks, q)
    ensures p == q
  {
  }

  // ---------------------------------------------------------------------------
  // Time residual of the interaction

  /** The sum of a list of reals. */
  function SumReal(xs: seq<real>): real
    decreases |xs|
  {
    if |xs| == 0 then 0.0 else SumReal(xs[..|xs| - 1]) + xs[|xs| - 1]
  }

  /** A sum of `n` values in `[lo, hi]` lies in `[n * lo, n * hi]`. */
  lemma {:induction false} SumRealBounds(xs: seq<real>, lo: real, hi: real)
    requires forall i :: 0 <= i < |xs| ==> lo <= xs[i] <= hi
    ensures lo * |xs| as real <= SumReal(xs) <= hi * |xs| as real
    decreases |xs|
  {
    if |xs| > 0 {
      var n := |xs| - 1;
      SumRealBounds(xs[..n], lo, hi);
      assert lo * |xs| as real == lo * n as real + lo;
      assert hi * |xs| as real == hi * n as real + hi;
    }
  }

  /** A sum of `n` values in `[lo, hi]` has its mean in `[lo, hi]`. */
  lemma MeanBounds(sum: real, n: real, lo: real, hi: real)
    requires n > 0.0 && lo * n <= sum <= hi * n
    ensures lo <= sum / n <= hi
  {
    var mean := sum / n;
    assert mean * n == sum;
    assert (mean - lo) * n == sum - lo * n;
    assert (hi - mean) * n == hi * n - sum;
  }

  /** The times of the hits whose triggered flag equals 1, in order. */
  function TriggeredTimes(hitsTime: seq<real>, triggered: seq<real>): (r: seq<real>)
    requires |hitsTime| == |triggered|
    ensures |r| <= |hitsTime|
    ensures |r| == 0 <==> forall i :: 0 <= i < |triggered| ==> triggered[i] != 1.0
    ensures forall x :: x in r ==> exists i :: 0 <= i < |hitsTime| && triggered[i] == 1.0 && hitsTime[i] == x
    decreases |hitsTime|
  {
    if |hitsTime| == 0 then []
    else
      var n := |hitsTime| - 1;
      var rest := TriggeredTimes(hitsTime[..n], triggered[..n]);
      assert forall i :: 0 <= i < n ==> hitsTime[..n][i] == hitsTime[i] && triggered[..n][i] == triggered[i];
      if triggered[n] == 1.0 then rest + [hitsTime[n]] else rest
  }

  /** The indices below `n` whose triggered flag equals 1, ascending. */
  function TriggeredIndices(triggered: seq<real>, n: nat): (idx: seq<nat>)
    requires n <= |triggered|
    ensures forall j :: 0 <= j < |idx| ==> idx[j] < n && triggered[idx[j]] == 1.0
    ensures forall j, j' :: 0 <= j < j' < |idx| ==> idx[j] < idx[j']
    decreases n
  {
    if n == 0 then []
    else TriggeredIndices(triggered, n - 1) + (if triggered[n - 1] == 1.0 then [n - 1] else [])
  }

  /** No flagged index is missed. */
  lemma {:induction false} TriggeredIndicesComplete(triggered: seq<real>, n: nat, i: nat)
    requires i < n <= |triggered| && triggered[i] == 1.0
    ensures i in TriggeredIndices(triggered, n)
    decreases n
  {
    if i < n - 1 {
      TriggeredIndicesComplete(triggered, n - 1, i);
    }
  }

  /** The selected times are exactly the times at the flagged indices, in hit
      order: `hits_time[triggered == 1]` over the first `n` hits. */
  lemma {:induction false} TriggeredTimesAreFlaggedTimes(hitsTime: seq<real>, triggered: seq<real>, n: nat)
    requires |hitsTime| == |triggered| && n <= |hitsTime|
    ensures var r := TriggeredTimes(hitsTime[..n], triggered[..n]);
            var idx := TriggeredIndices(triggered, n);
            && |r| == |idx|
            && forall j :: 0 <= j < |idx| ==> r[j] == hitsTime[idx[j]]
    decreases n
  {
    if n > 0 {
      TriggeredTimesAreFlaggedTimes(hitsTime, triggered, n - 1);
      var h, t := hitsTime[..n], triggered[..n];
      assert h[..n - 1] == hitsTime[..n - 1] && t[..n - 1] == triggered[..n - 1];
      var prev := TriggeredTimes(hitsTime[..n - 1], triggered[..n - 1]);
      var prevIdx := TriggeredIndices(triggered, n - 1);
      var r, idx := TriggeredTimes(h, t), TriggeredIndices(triggered, n);
      if triggered[n - 1] == 1.0 {
        assert r == prev + [hitsTime[n - 1]] && idx == prevIdx + [n - 1];
      } else {
        assert r == prev && idx == prevIdx;
      }
      forall j | 0 <= j < |idx|
        ensures r[j] == hitsTime[idx[j]]
      {
        if j < |prevIdx| {
          assert r[j] == prev[j] && idx[j] == prevIdx[j];
        }
      }
    }
  }

  /** `get_time_residual_nu_interaction_mean_triggered_hits`: the mean time of
      the hits flagged triggered == 1 minus the interaction time; NaN when no
      hit is flagged (the mean of an empty array, which does not raise). */
  function TimeResidual(timeInteraction: real, hitsTime: seq<real>, triggered: seq<real>): (r: Float)
    requires |hitsTime| == |triggered|
    ensures r.NaN? <==> forall i :: 0 <= i < |triggered| ==> triggered[i] != 1.0
  {
    var selected := TriggeredTimes(hitsTime, triggered);
    if |selected| == 0 then NaN
    else Finite(SumReal(selected) / |selected| as real - timeInteraction)
  }

  /** `xs[idx]`: the entries of `xs` at the given indices, in that order. */
  function AtIndices(xs: seq<real>, idx: seq<nat>): (r: seq<real>)
    requires forall j :: 0 <= j < |idx| ==> idx[j] < |xs|
    ensures |r| == |idx|
    ensures forall j :: 0 <= j < |idx| ==> r[j] == xs[idx[j]]
  {
    seq(|idx|, j requires 0 <= j < |idx| => xs[idx[j]])
  }

  /** A finite residual is the mean of the times at the indices flagged 1,
      minus the interaction time. */
  lemma TimeResidualIsMean(timeInteraction: real, hitsTime: seq<real>, triggered: seq<real>)
    requires |hitsTime| == |triggered|
    ensures var r := TimeResidual(timeInteraction, hitsTime, triggered);
            var idx := TriggeredIndices(triggered, |triggered|);
            r.Finite? ==>
              && |idx| > 0
              && r.v == SumReal(AtIndices(hitsTime, idx)) / |idx| as real - timeInteraction
  {
    var n := |hitsTime|;
    TriggeredTimesAreFlaggedTimes(hitsTime, triggered, n);
    assert hitsTime[..n] == hitsTime && triggered[..n] == triggered;
    assert TriggeredTimes(hitsTime, triggered) == AtIndices(hitsTime, TriggeredIndices(triggered, n));
  }

  /** The residual is the mean of the triggered times shifted by the interaction
      time, so it lies between the earliest and the latest triggered hit time
      shifted the same way. */
  lemma TimeResidualBounds(timeInteraction: real, hitsTime: seq<real>, triggered: seq<real>, lo: real, hi: real)
    requires |hitsTime| == |triggered|
    requires forall i :: 0 <= i < |hitsTime| && triggered[i] == 1.0 ==> lo <= hitsTime[i] <= hi
    ensures TimeResidual(timeInteraction, hitsTime, triggered).Finite? ==>
              lo - timeInteraction <= TimeResidual(timeInteraction, hitsTime, triggered).v <= hi - timeInteraction
  {
    var selected := TriggeredTimes(hitsTime, triggered);
    if |selected| > 0 {
      forall k | 0 <= k < |selected|
        ensures lo <= selected[k] <= hi
      {
        assert selected[k] in selected;
      }
      SumRealBounds(selected, lo, hi);
      MeanBounds(SumReal(selected), |selected| as real, lo, hi);
    }
  }

  // ---------------------------------------------------------------------------
  // Hit matrix

  /** Whether a channel-id column is added: the Python condition
      `a is True and b == 'channel_id' or b == 'xzt-c'` groups as
      `(a and b == 'channel_id') or b == 'xzt-c'`. */
  predicate WantsChannelId(do4d: (bool, string))
  {
    (do4d.0 && do4d.1 == "channel_id") || do4d.1 == "xzt-c"
  }

  /** The flag of the triggered cut: the triggered value cast to bool. */
  predicate IsTriggered(h: Hit)
  {
    h.triggered != 0
  }

  /** The row of one hit: position, time and triggered flag, then the channel
      id when asked for. */
  function HitRow(h: Hit, withChannel: bool): (row: seq<real>)
    ensures |row| == if withChannel then 6 else 5
    ensures row[3] == h.time && row[4] == h.triggered as real
  {
    [h.posX, h.posY, h.posZ, h.time, h.triggered as real] +
    (if withChannel then [h.channelId as real] else [])
  }

  /** A matrix with at least the five columns of position, time and triggered flag. */
  ghost predicate IsHitMatrix(rows: seq<seq<real>>)
  {
    forall i :: 0 <= i < |rows| ==> |rows[i]| >= 5
  }

  /** One row per hit, in order. */
  function HitMatrix(hits: seq<Hit>, withChannel: bool): (rows: seq<seq<real>>)
    ensures |rows| == |hits|
    ensures forall i :: 0 <= i < |hits| ==> rows[i] == HitRow(hits[i], withChannel)
  {
    seq(|hits|, i requires 0 <= i < |hits| => HitRow(hits[i], withChannel))
  }

  /** Column `k` of a matrix. */
  function Column(rows: seq<seq<real>>, k: nat): (col: seq<real>)
    requires forall i :: 0 <= i < |rows| ==> k < |rows[i]|
    ensures |col| == |rows|
    ensures forall i :: 0 <= i < |rows| ==> col[i] == rows[i][k]
  {
    seq(|rows|, i requires 0 <= i < |rows| => rows[i][k])
  }

  /** The hit table read for the event: `Hits`, or `McHits` when simulated hits
      only are wanted. Whether to calibrate is decided from `Hits` alone, even
      when `McHits` is the table read. */
  function SelectHits(blob: EventBlob, geo: Option<Calibration>, doMcHits: bool): (r: Result<seq<Hit>, ExtractError>)
    ensures r == Failure(NoCalibration) <==> !blob.hits.calibrated && geo.None?
    ensures r == Failure(NoPositions) <==> blob.hits.calibrated && doMcHits && !blob.mcHits.calibrated
    ensures r.Failure? ==> r.error == NoCalibration || r.error == NoPositions
    ensures r.Success? ==>
              var selected := (if doMcHits then blob.mcHits else blob.hits).hits;
              r.value == (if blob.hits.calibrated then selected else geo.value(selected))
  {
    var table := if doMcHits then blob.mcHits else blob.hits;
    if !blob.hits.calibrated then
      (if geo.Some? then Success(geo.value(table.hits)) else Failure(NoCalibration))
    else if !table.calibrated then Failure(NoPositions)
    else Success(table.hits)
  }

  /** Line 85 reads the flag of `Hits` only: when `Hits` lacks positions, the
      selected table is calibrated whatever its own flag says, so even a
      calibrated `McHits` fails without a geometry. */
  lemma CalibrationIgnoresSelectedFlag(blob: EventBlob, geo: Option<Calibration>, doMcHits: bool, c: bool)
    requires !blob.hits.calibrated
    ensures SelectHits(blob, geo, doMcHits) ==
            SelectHits(blob.(mcHits := blob.mcHits.(calibrated := c)), geo, doMcHits)
    ensures geo.None? ==> SelectHits(blob, geo, doMcHits) == Failure(NoCalibration)
  {
  }

  /** When `Hits` has positions the geometry is never consulted. */
  lemma CalibratedHitsIgnoreGeo(blob: EventBlob, g1: Option<Calibration>, g2: Option<Calibration>, doMcHits: bool)
    requires blob.hits.calibrated
    ensures SelectHits(blob, g1, doMcHits) == SelectHits(blob, g2, doMcHits)
  {
  }

  /** The hits that survive the triggered cut: the triggered ones in their
      original order when the cut is on, all of them otherwise. */
  function KeptHits(hits: seq<Hit>, triggeredCut: bool): (kept: seq<Hit>)
    ensures triggeredCut ==> forall i :: 0 <= i < |kept| ==> kept[i].triggered != 0
    ensures !triggeredCut ==> kept == hits
  {
    if triggeredCut then Filter(hits, IsTriggered) else hits
  }

  /** A hit survives the cut iff it is in the table and, with the cut on, its
      triggered flag is truthy. */
  lemma KeptHitsMembership(hits: seq<Hit>, triggeredCut: bool, h: Hit)
    ensures h in KeptHits(hits, triggeredCut) <==> h in hits && (!triggeredCut || h.triggered != 0)
  {
    if triggeredCut {
      FilterMembership(hits, IsTriggered, h);
    }
  }

  /** `get_hits`: the hit matrix of the event. */
  function GetHits(blob: EventBlob, geo: Option<Calibration>, doMcHits: bool, triggeredCut: bool, do4d: (bool, string))
    : (r: Result<seq<seq<real>>, ExtractError>)
    ensures r.Success? <==> SelectHits(blob, geo, doMcHits).Success?
    ensures r.Failure? ==> r.error == SelectHits(blob, geo, doMcHits).error
    ensures r.Success? ==> IsHitMatrix(r.value)
    ensures r.Success? ==>
              var kept := KeptHits(SelectHits(blob, geo, doMcHits).value, triggeredCut);
              |r.value| == |kept| &&
              forall i :: 0 <= i < |kept| ==> r.value[i] == HitRow(kept[i], WantsChannelId(do4d))
    ensures r.Success? && triggeredCut ==> forall i :: 0 <= i < |r.value| ==> r.value[i][4] != 0.0
    ensures r.Success? ==>
              forall i :: 0 <= i < |r.value| ==>
                |r.value[i]| == (if (do4d.0 && do4d.1 == "channel_id") || do4d.1 == "xzt-c" then 6 else 5)
  {
    match SelectHits(blob, geo, doMcHits)
    case Failure(e) => Failure(e)
    case Success(hits) => Success(HitMatrix(KeptHits(hits, triggeredCut), WantsChannelId(do4d)))
  }

  /** The times of the rows whose triggered column equals 1. */
  function TriggeredTimesOf(hits: seq<Hit>, withChannel: bool): seq<real>
  {
    var rows := HitMatrix(hits, withChannel);
    TriggeredTimes(Column(rows, 3), Column(rows, 4))
  }

  lemma TriggeredTimesOfSnoc(hits: seq<Hit>, h: Hit, withChannel: bool)
    ensures TriggeredTimesOf(hits + [h], withChannel) ==
            TriggeredTimesOf(hits, withChannel) + (if h.triggered as real == 1.0 then [h.time] else [])
  {
    var rows := HitMatrix(hits + [h], withChannel);
    var rows' := HitMatrix(hits, withChannel);
    var n := |hits|;
    assert Column(rows, 3)[..n] == Column(rows', 3);
    assert Column(rows, 4)[..n] == Column(rows', 4);
  }

  /** Cutting to triggered hits does not change the times flagged triggered == 1,
      the ones the time residual averages. */
  lemma {:induction false} TriggeredCutKeepsTriggeredTimes(hits: seq<Hit>, withChannel: bool)
    ensures TriggeredTimesOf(Filter(hits, IsTriggered), withChannel) == TriggeredTimesOf(hits, withChannel)
    decreases |hits|
  {
    if |hits| > 0 {
      var n := |hits| - 1;
      var h := hits[n];
      assert hits == hits[..n] + [h];
      TriggeredCutKeepsTriggeredTimes(hits[..n], withChannel);
      TriggeredTimesOfSnoc(hits[..n], h, withChannel);
      if IsTriggered(h) {
        TriggeredTimesOfSnoc(Filter(hits[..n], IsTriggered), h, withChannel);
      }
    }
  }

  // ---------------------------------------------------------------------------
  // Track vector

  /** The run id: `start_run.run_id` of `Header` when present, else `RawHeader[0][0]`. */
  function RunId(blob: EventBlob): (r: Result<int, ExtractError>)
    ensures r.Failure? <==> blob.header.None? && (|blob.rawHeader| == 0 || |blob.rawHeader[0]| == 0)
    ensures r.Failure? ==> r.error == MissingRunId
  {
    if blob.header.Some? then Success(blob.header.value)
    else if |blob.rawHeader| == 0 || |blob.rawHeader[0]| == 0 then Failure(MissingRunId)
    else Success(blob.rawHeader[0][0])
  }

  /** The energy summed over every row of the track table. */
  function TotalEnergy(tracks: seq<McTrack>): real
    decreases |tracks|
  {
    if |tracks| == 0 then 0.0 else TotalEnergy(tracks[..|tracks| - 1]) + tracks[|tracks| - 1].energy
  }

  /** The position of the run id in the track vector of a file type. */
  function RunIdIndex(fileParticleType: string): nat
  {
    if fileParticleType == "undefined" then 1 else 9
  }

  /** The fourteen entries shared by the muon and neutrino layouts; `t` gives
      the truth fields, the last entry differs between the two. */
  function TruthTrack(eventId: int, runId: int, t: McTrack, energy: real, vertex: (real, real, real), last: Float)
    : (track: seq<Float>)
    ensures |track| == 14
    ensures track[0] == Finite(eventId as real) && track[9] == Finite(runId as real) && track[13] == last
  {
    [Finite(eventId as real), Finite(t.particleType as real), Finite(energy), Finite(t.isCc), Finite(t.bjorkeny),
     Finite(t.dirX), Finite(t.dirY), Finite(t.dirZ), Finite(t.time), Finite(runId as real),
     Finite(vertex.0), Finite(vertex.1), Finite(vertex.2), last]
  }

  /** `get_tracks`: the track vector of the event. */
  function GetTracks(blob: EventBlob, fileParticleType: string, eventHits: seq<seq<real>>,
                     prodIdent: Option<int>, muonVertex: VertexAverage): (r: Result<seq<Float>, ExtractError>)
    requires IsHitMatrix(eventHits)
    ensures r.Success? <==>
              |blob.eventIds| > 0 && RunId(blob).Success? &&
              (fileParticleType == "undefined" ||
               (fileParticleType == "muon" && |blob.mcTracks| >= 2) ||
               (fileParticleType == "neutrino" &&
                exists i :: 0 <= i < |blob.mcTracks| && blob.mcTracks[i].bjorkeny != 0.0))
    ensures |blob.eventIds| > 0 && RunId(blob).Success? &&
            fileParticleType !in {"undefined", "muon", "neutrino"} ==>
              r == Failure(UnknownParticleType(fileParticleType))
  {
    if |blob.eventIds| == 0 then Failure(MissingEventId)
    else
      var eventId := blob.eventIds[0];
      match RunId(blob)
      case Failure(e) => Failure(e)
      case Success(runId) =>
        var track :=
          if fileParticleType == "undefined" then
            Success([Finite(eventId as real), Finite(runId as real), Finite(0.0)])
          else if fileParticleType == "muon" then
            if |blob.mcTracks| < 2 then Failure(MissingMuonTrack)
            else
              var t := blob.mcTracks[1];
              Success(TruthTrack(eventId, runId, t, TotalEnergy(blob.mcTracks), muonVertex(blob.mcTracks[1..]),
                                 Finite((|blob.mcTracks| - 1) as real)))
          else if fileParticleType == "neutrino" then
            match PrimaryTrackIndex(blob.mcTracks)
            case None => Failure(NoPrimaryTrack)
            case Some(p) =>
              var t := blob.mcTracks[p];
              var residual := TimeResidual(t.time, Column(eventHits, 3), Column(eventHits, 4));
              Success(TruthTrack(eventId, runId, t, t.energy, (t.posX, t.posY, t.posZ), residual))
          else Failure(UnknownParticleType(fileParticleType));
        match track
        case Failure(e) => Failure(e)
        case Success(values) =>
          Success(if prodIdent.Some? then values + [Finite(prodIdent.value as real)] else values)
  }

  /** The layout every file type shares: the length, the event id first, the
      run id at its place, and the production id last when one is given. */
  lemma TrackLayout(blob: EventBlob, fileParticleType: string, eventHits: seq<seq<real>>,
                    prodIdent: Option<int>, muonVertex: VertexAverage)
    requires IsHitMatrix(eventHits)
    ensures var r := GetTracks(blob, fileParticleType, eventHits, prodIdent, muonVertex);
            r.Success? ==>
              |r.value| == (if fileParticleType == "undefined" then 3 else 14) + (if prodIdent.Some? then 1 else 0) &&
              r.value[0] == Finite(blob.eventIds[0] as real) &&
              r.value[RunIdIndex(fileParticleType)] == Finite(RunId(blob).value as real) &&
              (prodIdent.Some? ==> r.value[|r.value| - 1] == Finite(prodIdent.value as real))
  {
  }

  /** An `undefined` file gives `[event_id, run_id, 0]`. */
  lemma UndefinedTrack(blob: EventBlob, eventHits: seq<seq<real>>, muonVertex: VertexAverage)
    requires IsHitMatrix(eventHits)
    requires |blob.eventIds| > 0 && RunId(blob).Success?
    ensures GetTracks(blob, "undefined", eventHits, None, muonVertex) ==
            Success([Finite(blob.eventIds[0] as real), Finite(RunId(blob).value as real), Finite(0.0)])
  {
  }

  /** `Header` wins: with it present, `RawHeader` is never read, and the run-id
      entry of the track vector is the header's run id. */
  lemma RunIdPrefersHeader(blob: EventBlob, fileParticleType: string, eventHits: seq<seq<real>>,
                           prodIdent: Option<int>, muonVertex: VertexAverage, raw: seq<seq<int>>)
    requires IsHitMatrix(eventHits) && blob.header.Some?
    ensures var r := GetTracks(blob, fileParticleType, eventHits, prodIdent, muonVertex);
            && r == GetTracks(blob.(rawHeader := raw), fileParticleType, eventHits, prodIdent, muonVertex)
            && (r.Success? ==> r.value[RunIdIndex(fileParticleType)] == Finite(blob.header.value as real))
  {
    TrackLayout(blob, fileParticleType, eventHits, prodIdent, muonVertex);
  }

  /** Without `Header` the run id is `RawHeader[0][0]`: the track vector
      depends on `RawHeader` through that one entry only, and carries it as its
      run-id entry. */
  lemma RunIdFallsBackToRawHeader(blob: EventBlob, fileParticleType: string, eventHits: seq<seq<real>>,
                                  prodIdent: Option<int>, muonVertex: VertexAverage, raw: seq<seq<int>>)
    requires IsHitMatrix(eventHits) && blob.header.None?
    requires |blob.rawHeader| > 0 && |blob.rawHeader[0]| > 0
    requires |raw| > 0 && |raw[0]| > 0 && raw[0][0] == blob.rawHeader[0][0]
    ensures var r := GetTracks(blob, fileParticleType, eventHits, prodIdent, muonVertex);
            && r == GetTracks(blob.(rawHeader := raw), fileParticleType, eventHits, prodIdent, muonVertex)
            && (r.Success? ==> r.value[RunIdIndex(fileParticleType)] == Finite(blob.rawHeader[0][0] as real))
  {
    TrackLayout(blob, fileParticleType, eventHits, prodIdent, muonVertex);
  }

  /** Extraction fails for lack of a run id exactly when the event id exists,
      `Header` is absent and `RawHeader[0][0]` does not exist. */
  lemma MissingRunIdIff(blob: EventBlob, fileParticleType: string, eventHits: seq<seq<real>>,
                        prodIdent: Option<int>, muonVertex: VertexAverage)
    requires IsHitMatrix(eventHits)
    ensures GetTracks(blob, fileParticleType, eventHits, prodIdent, muonVertex) == Failure(MissingRunId) <==>
            |blob.eventIds| > 0 && blob.header.None? && (|blob.rawHeader| == 0 || |blob.rawHeader[0]| == 0)
  {
  }

  /** A muon file: the truth fields come from track row 1, the energy is the sum
      over all rows and the last entry counts the muons, every row but the first. */
  lemma MuonTrackFields(blob: EventBlob, eventHits: seq<seq<real>>, prodIdent: Option<int>, muonVertex: VertexAverage)
    requires IsHitMatrix(eventHits)
    ensures var r := GetTracks(blob, "muon", eventHits, prodIdent, muonVertex);
            r.Success? ==>
              var t := blob.mcTracks[1];
              r.value[1] == Finite(t.particleType as real) &&
              r.value[2] == Finite(TotalEnergy(blob.mcTracks)) &&
              r.value[3..9] == [Finite(t.isCc), Finite(t.bjorkeny), Finite(t.dirX), Finite(t.dirY), Finite(t.dirZ), Finite(t.time)] &&
              r.value[13] == Finite((|blob.mcTracks| - 1) as real)
  {
    var r := GetTracks(blob, "muon", eventHits, prodIdent, muonVertex);
    if r.Success? {
      var t := blob.mcTracks[1];
      var values := TruthTrack(blob.eventIds[0], RunId(blob).value, t, TotalEnergy(blob.mcTracks),
                               muonVertex(blob.mcTracks[1..]), Finite((|blob.mcTracks| - 1) as real));
      assert r.value[..14] == values;
      assert values[3..9] == [Finite(t.isCc), Finite(t.bjorkeny), Finite(t.dirX), Finite(t.dirY), Finite(t.dirZ), Finite(t.time)];
    }
  }

  /** A neutrino file: every truth field, the vertex included, comes from the
      primary track, and the last entry is the time residual of the hits
      flagged triggered == 1 with respect to that track's time. */
  lemma NeutrinoTrackFields(blob: EventBlob, eventHits: seq<seq<real>>, prodIdent: Option<int>,
                            muonVertex: VertexAverage, p: nat)
    requires IsHitMatrix(eventHits)
    requires |blob.eventIds| > 0 && RunId(blob).Success?
    requires IsPrimary(blob.mcTracks, p)
    ensures var r := GetTracks(blob, "neutrino", eventHits, prodIdent, muonVertex);
            var t := blob.mcTracks[p];
            r.Success? &&
            r.value[1..9] == [Finite(t.particleType as real), Finite(t.energy), Finite(t.isCc), Finite(t.bjorkeny),
                              Finite(t.dirX), Finite(t.dirY), Finite(t.dirZ), Finite(t.time)] &&
            r.value[10..13] == [Finite(t.posX), Finite(t.posY), Finite(t.posZ)] &&
            r.value[13] == TimeResidual(t.time, Column(eventHits, 3), Column(eventHits, 4))
  {
    var q := PrimaryTrackIndex(blob.mcTracks);
    assert blob.mcTracks[p].bjorkeny != 0.0;
    PrimaryIsUnique(blob.mcTracks, p, q.value);
    var t := blob.mcTracks[p];
    var residual := TimeResidual(t.time, Column(eventHits, 3), Column(eventHits, 4));
    var values := TruthTrack(blob.eventIds[0], RunId(blob).value, t, t.energy, (t.posX, t.posY, t.posZ), residual);
    var r := GetTracks(blob, "neutrino", eventHits, prodIdent, muonVertex);
    assert r.value == if prodIdent.Some? then values + [Finite(prodIdent.value as real)] else values;
    assert r.value[..14] == values;
  }

  // ---------------------------------------------------------------------------
  // Event data

  /** `get_event_data`: the hit matrix, then the track vector built from it. */
  function GetEventData(blob: EventBlob, fileParticleType: string, geo: Option<Calibration>, doMcHits: bool,
                        triggeredCut: bool, do4d: (bool, string), prodIdent: Option<int>, muonVertex: VertexAverage)
    : (r: Result<(seq<seq<real>>, seq<Float>), ExtractError>)
    ensures r.Success? ==>
              GetHits(blob, geo, doMcHits, triggeredCut, do4d) == Success(r.value.0) &&
              GetTracks(blob, fileParticleType, r.value.0, prodIdent, muonVertex) == Success(r.value.1)
    ensures r.Failure? ==>
              match GetHits(blob, geo, doMcHits, triggeredCut, do4d)
              case Failure(e) => r.error == e
              case Success(rows) => GetTracks(blob, fileParticleType, rows, prodIdent, muonVertex) == Failure(r.error)
  {
    match GetHits(blob, geo, doMcHits, triggeredCut, do4d)
    case Failure(e) => Failure(e)
    case Success(rows) =>
      match GetTracks(blob, fileParticleType, rows, prodIdent, muonVertex)
      case Failure(e) => Failure(e)
      case Success(track) => Success((rows, track))
  }

  /** For a neutrino file the triggered cut leaves the time residual unchanged:
      the residual averages the hits flagged triggered == 1, all of which the
      cut keeps. */
  lemma TriggeredCutKeepsResidual(blob: EventBlob, geo: Option<Calibration>, doMcHits: bool, do4d: (bool, string),
                                  prodIdent: Option<int>, muonVertex: VertexAverage)
    requires SelectHits(blob, geo, doMcHits).Success?
    ensures var cut := GetEventData(blob, "neutrino", geo, doMcHits, true, do4d, prodIdent, muonVertex);
            var all := GetEventData(blob, "neutrino", geo, doMcHits, false, do4d, prodIdent, muonVertex);
            cut.Success? == all.Success? &&
            (cut.Success? ==> cut.value.1 == all.value.1)
  {
    var hits := SelectHits(blob, geo, doMcHits).value;
    var w := WantsChannelId(do4d);
    TriggeredCutKeepsTriggeredTimes(hits, w);
    var cutRows := HitMatrix(Filter(hits, IsTriggered), w);
    var allRows := HitMatrix(hits, w);
    assert GetHits(blob, geo, doMcHits, true, do4d) == Success(cutRows);
    assert GetHits(blob, geo, doMcHits, false, do4d) == Success(allRows);
    var p := PrimaryTrackIndex(blob.mcTracks);
    if p.Some? {
      var t := blob.mcTracks[p.value];
      assert TimeResidual(t.time, Column(cutRows, 3), Column(cutRows, 4)) ==
             TimeResidual(t.time, Column(allRows, 3), Column(allRows, 4));
    }
  }
}
