/**
 How the two `CatchPlate` variants relate. They share the history, the
 motion step and the border heights; their predictions agree while the
 history holds at most three observations and can differ after that, when
 `objects.py` keeps the first observation as an anchor.
 */
module Variants {

  import opened Vectors
  import opened Options
  import Track
  import Fit
  import ObjectsFile
  import Objects

  /** The `objects.py` plate with the same state as an `objects_file.py` plate (it keeps no dt). */
  function AsVision(p: ObjectsFile.CatchPlate): Objects.CatchPlate
  {
    Objects.CatchPlate(p.center, p.plateX, p.width, p.velocity, p.required, p.minHeight, p.maxHeight, p.track)
  }

  /** With at most three observations both variants predict the same target, or both fail. */
  lemma ApproximationsAgreeUpToThree(p: ObjectsFile.CatchPlate)
    requires p.track.numObs == |p.track.obs| <= 3
    ensures ObjectsFile.Approximation(p).Some? <==> Objects.Approximation(AsVision(p)).Some?
    ensures ObjectsFile.Approximation(p).Some? ==>
      ObjectsFile.Approximation(p).value.required == Objects.Approximation(AsVision(p)).value.required
  {
  }

  /** The four observations (0, 0), (1, 1), (2, 0), (3, 3), in order, with their counter. */
  function FourObservations(): Track.History
  {
    Track.History([Vec(0.0, 0.0), Vec(1.0, 1.0), Vec(2.0, 0.0), Vec(3.0, 3.0)], 4)
  }

  /**
   `objects_file.py` fits the last three, (1, 1), (2, 0), (3, 3), which lie on
   y = 2x^2 - 7x + 6: the prediction at x = 4 is 10. Derived from the
   contract of `Approximation` alone.
   */
  lemma LastThreePredictionOnFour(p: ObjectsFile.CatchPlate)
    requires p.track == FourObservations() && p.plateX == 4.0
    ensures ObjectsFile.Approximation(p) == Some(p.(required := 10.0))
  {
    var h := p.track.obs;
    assert h[1] == Vec(1.0, 1.0) && h[2] == Vec(2.0, 0.0) && h[3] == Vec(3.0, 3.0);
    var q := Fit.Parabola(2.0, -7.0, 6.0);
    assert Fit.OnParabola(q, h[1]) && Fit.OnParabola(q, h[2]) && Fit.OnParabola(q, h[3]);
    assert Fit.ParabolaAt(q, 4.0) == 10.0;
  }

  /**
   `objects.py` fits the first, middle and last, (0, 0), (1, 1), (3, 3), which
   lie on y = x: the prediction at x = 4 is 4. Derived from the contract of
   `Approximation` alone.
   */
  lemma AnchoredPredictionOnFour(p: Objects.CatchPlate)
    requires p.track == FourObservations() && p.plateX == 4.0
    ensures Objects.Approximation(p) == Some(p.(required := 4.0))
  {
    var h := p.track.obs;
    assert Objects.MiddleIndex(4) == 1;
    assert h[0] == Vec(0.0, 0.0) && h[1] == Vec(1.0, 1.0) && h[3] == Vec(3.0, 3.0);
    var q := Fit.Parabola(0.0, 1.0, 0.0);
    assert Fit.OnParabola(q, h[0]) && Fit.OnParabola(q, h[1]) && Fit.OnParabola(q, h[3]);
    assert Fit.ParabolaAt(q, 4.0) == 4.0;
  }

  /** The `objects.py` border points are those of `objects_file.py` shifted by `correct_x`. */
  lemma BordersAgreeUpToShift(p: ObjectsFile.CatchPlate, correctX: real)
    ensures forall i :: 0 <= i < 3 ==>
      Objects.GetBorders(AsVision(p), correctX)[i] == Add(ObjectsFile.GetBorders(p)[i], Vec(correctX, 0.0))
  {
  }
}
