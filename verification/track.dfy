/**
 The plate's observation history: the list of ball positions it has seen
 during the current episode together with the separately kept counter
 `num_obs`. A position is stored only when no stored position has the same
 x, so every history built from the empty one has pairwise distinct x values
 and a counter equal to its length.
 */
module Track {

  import opened Vectors

  datatype History = History(obs: seq<Vec>, numObs: int)

  /** No two stored observations share an x coordinate. */
  predicate DistinctX(obs: seq<Vec>)
  {
    forall i, j :: 0 <= i < j < |obs| ==> obs[i].x != obs[j].x
  }

  /** The invariant every history reachable from `Empty` keeps. */
  predicate Valid(h: History)
  {
    h.numObs == |h.obs| && DistinctX(h.obs)
  }

  /** Some stored observation has x coordinate `x`. */
  predicate SeenX(obs: seq<Vec>, x: real)
  {
    exists i :: 0 <= i < |obs| && obs[i].x == x
  }

  /** The history `free_track` installs: no observations and a zero counter. */
  function Empty(): (h: History)
    ensures Valid(h) && |h.obs| == 0
  {
    History([], 0)
  }

  /** `[i[0] for i in track_list].count(x)`: how many stored observations have x coordinate `x`. */
  function CountX(obs: seq<Vec>, x: real): (n: nat)
    ensures n <= |obs|
    ensures n == 0 <==> !SeenX(obs, x)
  {
    if obs == [] then 0
    else
      var rest := CountX(obs[1..], x);
      assert forall i :: 0 <= i < |obs[1..]| ==> obs[1..][i] == obs[i + 1];
      assert SeenX(obs, x) <==> obs[0].x == x || SeenX(obs[1..], x);
      rest + (if obs[0].x == x then 1 else 0)
  }

  /**
   Store `pos` unless its x is already present; the counter moves with the
   list. Shared by `append_pos` and the append inside `find_ball`.
   */
  function Append(h: History, pos: Vec): (r: History)
    ensures SeenX(h.obs, pos.x) ==> r == h
    ensures !SeenX(h.obs, pos.x) ==> r.obs == h.obs + [pos] && r.numObs == h.numObs + 1
    ensures Valid(h) ==> Valid(r)
  {
    if CountX(h.obs, pos.x) == 0 then History(h.obs + [pos], h.numObs + 1) else h
  }

  /** Offering the same position twice stores it at most once. */
  lemma AppendIdempotent(h: History, pos: Vec)
    ensures Append(Append(h, pos), pos) == Append(h, pos)
  {
    var r := Append(h, pos);
    if !SeenX(h.obs, pos.x) {
      assert r.obs[|h.obs|] == pos;
      assert SeenX(r.obs, pos.x);
    }
  }

  /** Every stored observation stays stored, in place: the history only grows at its end. */
  lemma AppendKeepsPrefix(h: History, pos: Vec)
    ensures h.obs <= Append(h, pos).obs
    ensures |Append(h, pos).obs| <= |h.obs| + 1
  {
  }
}
