/** Freshness ranking shared by both closest-station selections: the
    stations of a list of locations are visited location by location,
    station by station, and the one whose `last_updated` is nearest the
    reference instant wins, the earliest visited on a tie. */
module Selection {

  import opened Wrappers
  import opened CloudwiseTypes

  /** A station together with the location it belongs to. */
  datatype Candidate = Candidate(location: OcpiLocationData, station: Evse)

  /** The candidates of one location, in station order. */
  function Pairs(loc: OcpiLocationData): (r: seq<Candidate>)
    ensures |r| == |loc.stations|
    ensures forall j :: 0 <= j < |r| ==> r[j] == Candidate(loc, loc.stations[j])
  {
    seq(|loc.stations|, j requires 0 <= j < |loc.stations| => Candidate(loc, loc.stations[j]))
  }

  /** All candidates in the order the nested loops visit them. */
  function Flatten(locs: seq<OcpiLocationData>): seq<Candidate>
    decreases |locs|
  {
    if locs == [] then [] else Flatten(locs[..|locs| - 1]) + Pairs(locs[|locs| - 1])
  }

  /** Every station of every location is visited. */
  lemma {:induction false} FlattenCovers(locs: seq<OcpiLocationData>, i: nat, j: nat)
    requires i < |locs| && j < |locs[i].stations|
    ensures exists k :: 0 <= k < |Flatten(locs)| && Flatten(locs)[k] == Candidate(locs[i], locs[i].stations[j])
    decreases |locs|
  {
    var init := locs[..|locs| - 1];
    if i == |locs| - 1 {
      var k := |Flatten(init)| + j;
      assert Flatten(locs)[k] == Pairs(locs[i])[j];
    } else {
      FlattenCovers(init, i, j);
      var k :| 0 <= k < |Flatten(init)| && Flatten(init)[k] == Candidate(init[i], init[i].stations[j]);
      assert Flatten(locs)[k] == Flatten(init)[k];
    }
  }

  /** Every visited candidate is a station of one of the locations. */
  lemma {:induction false} FlattenSound(locs: seq<OcpiLocationData>, k: nat)
    requires k < |Flatten(locs)|
    ensures Flatten(locs)[k].location in locs
    ensures Flatten(locs)[k].station in Flatten(locs)[k].location.stations
    decreases |locs|
  {
    var init := locs[..|locs| - 1];
    if k < |Flatten(init)| {
      FlattenSound(init, k);
      assert Flatten(locs)[k] == Flatten(init)[k];
    } else {
      assert Flatten(locs)[k] == Pairs(locs[|locs| - 1])[k - |Flatten(init)|];
    }
  }

  /** The first location's first station is the first candidate visited. */
  lemma {:induction false} FlattenHead(locs: seq<OcpiLocationData>)
    requires |locs| > 0 && |locs[0].stations| > 0
    ensures |Flatten(locs)| > 0 && Flatten(locs)[0] == Candidate(locs[0], locs[0].stations[0])
    decreases |locs|
  {
    if |locs| == 1 {
      assert Flatten(locs) == Flatten([]) + Pairs(locs[0]);
    } else {
      var init := locs[..|locs| - 1];
      FlattenHead(init);
      assert Flatten(locs)[0] == Flatten(init)[0];
    }
  }

  /** |reference − last_updated| in milliseconds. */
  function Distance(reference: Millis, c: Candidate): nat
  {
    if reference >= c.station.lastUpdated then reference - c.station.lastUpdated
    else c.station.lastUpdated - reference
  }

  /** Whether a candidate takes part: every station when no status is asked
      for, otherwise only stations with exactly that status. */
  predicate Eligible(c: Candidate, status: Option<string>)
  {
    status.None? || c.station.status == status.value
  }

  predicate AnyEligible(cs: seq<Candidate>, status: Option<string>)
  {
    exists k :: 0 <= k < |cs| && Eligible(cs[k], status)
  }

  lemma AnyEligibleExtend(cs: seq<Candidate>, c: Candidate, status: Option<string>)
    ensures AnyEligible(cs + [c], status) <==> AnyEligible(cs, status) || Eligible(c, status)
  {
    var cs' := cs + [c];
    assert forall m :: 0 <= m < |cs| ==> cs'[m] == cs[m];
    if Eligible(c, status) {
      assert cs'[|cs|] == c;
    }
  }

  /** `cs[k]` is eligible, no eligible candidate is nearer the reference,
      and every earlier eligible candidate is strictly farther. */
  ghost predicate IsFirstClosest(cs: seq<Candidate>, reference: Millis, status: Option<string>, k: int)
  {
    && 0 <= k < |cs|
    && Eligible(cs[k], status)
    && (forall i :: 0 <= i < |cs| && Eligible(cs[i], status) ==> Distance(reference, cs[k]) <= Distance(reference, cs[i]))
    && (forall i :: 0 <= i < k && Eligible(cs[i], status) ==> Distance(reference, cs[k]) < Distance(reference, cs[i]))
  }

  /** A ranking winner is an eligible candidate. */
  lemma FirstClosestIsEligible(cs: seq<Candidate>, reference: Millis, status: Option<string>, k: int)
    requires IsFirstClosest(cs, reference, status, k)
    ensures AnyEligible(cs, status)
  {
    assert Eligible(cs[k], status);
  }

  /** The ranking picks one candidate at most. */
  lemma FirstClosestIsUnique(cs: seq<Candidate>, reference: Millis, status: Option<string>, k1: int, k2: int)
    requires IsFirstClosest(cs, reference, status, k1) && IsFirstClosest(cs, reference, status, k2)
    ensures k1 == k2
  {
  }

  /** Extending the visited prefix by one candidate: the earlier winner
      keeps its place unless the new one is strictly nearer. */
  lemma ExtendFirstClosest(cs: seq<Candidate>, c: Candidate, reference: Millis, status: Option<string>, k: int)
    requires IsFirstClosest(cs, reference, status, k)
    ensures Eligible(c, status) && Distance(reference, c) < Distance(reference, cs[k]) ==>
      IsFirstClosest(cs + [c], reference, status, |cs|)
    ensures !(Eligible(c, status) && Distance(reference, c) < Distance(reference, cs[k])) ==>
      IsFirstClosest(cs + [c], reference, status, k)
  {
    var cs' := cs + [c];
    assert forall i :: 0 <= i < |cs| ==> cs'[i] == cs[i];
  }
}
