/**
 * The energy terms of StandardGraphCutImageFilter: hard-linked regional terms
 * read from a label image, and a Gaussian boundary term on a grey image
 * scaled into the integer weight type.
 */
module StandardFilter {
  import opened Grid
  import opened Images
  import opened GraphCutFilter

  /** The default sigma of the Gaussian. */
  const DefaultSigma: real := 0.1

  /**
   * exp(-d^2 / (2 sigma^2)) as the boundary terms use it, known only by the
   * properties the filters rely on: a value in [0, 1], exactly 1 at d = 0,
   * and the same for d and -d.
   */
  ghost predicate GaussianLike(g: (real, real) -> real) {
    (forall s, d :: 0.0 <= g(s, d) <= 1.0) &&
    (forall s :: g(s, 0.0) == 1.0) &&
    (forall s, d, e :: d + e == 0.0 ==> g(s, d) == g(s, e))
  }

  /**
   * The default weight scale (max - 1) / 6 - epsilon for an integer weight
   * type (epsilon 0): the largest scale for which six boundary terms leave
   * room for one more unit below the maximum weight.
   */
  function DefaultWeightScale(maxWeight: nat): (scale: nat)
    requires maxWeight >= 1
    ensures 6 * scale <= maxWeight - 1 < 6 * (scale + 1)
  {
    (maxWeight - 1) / 6
  }

  /** The two parameters of the standard filter. */
  datatype Parameters = Parameters(sigma: real, weightScale: nat)

  /** The constructor's defaults for a weight type whose maximum is maxWeight. */
  function DefaultParameters(maxWeight: nat): (p: Parameters)
    requires maxWeight >= 1
    ensures p.sigma == 0.1
    ensures 6 * p.weightScale + 1 <= maxWeight
  {
    Parameters(DefaultSigma, DefaultWeightScale(maxWeight))
  }

  /**
   * ComputeRegionalTerm: for the background label, the maximum weight where
   * the label image says background; for any other label, the maximum weight
   * where it says foreground; 0 everywhere else.
   */
  function RegionalTerm(labels: Volume<int>, v: Index, l: int, foregroundLabel: int, backgroundLabel: int,
                        maxWeight: nat): (w: int)
    requires labels.Valid() && labels.Contains(v)
    ensures w == 0 || w == maxWeight
  {
    if l == backgroundLabel then
      (if labels.At(v) == backgroundLabel then maxWeight else 0)
    else
      (if labels.At(v) == foregroundLabel then maxWeight else 0)
  }

  /** A voxel labelled foreground is tied to the source and cut from the sink. */
  lemma ForegroundSeedHardLinked(labels: Volume<int>, v: Index, foregroundLabel: int, backgroundLabel: int,
                                 maxWeight: nat)
    requires labels.Valid() && labels.Contains(v)
    requires labels.At(v) == foregroundLabel && foregroundLabel != backgroundLabel
    ensures RegionalTerm(labels, v, foregroundLabel, foregroundLabel, backgroundLabel, maxWeight) == maxWeight
    ensures RegionalTerm(labels, v, backgroundLabel, foregroundLabel, backgroundLabel, maxWeight) == 0
  {
  }

  /** A voxel labelled background is tied to the sink and cut from the source. */
  lemma BackgroundSeedHardLinked(labels: Volume<int>, v: Index, foregroundLabel: int, backgroundLabel: int,
                                 maxWeight: nat)
    requires labels.Valid() && labels.Contains(v)
    requires labels.At(v) == backgroundLabel && foregroundLabel != backgroundLabel
    ensures RegionalTerm(labels, v, backgroundLabel, foregroundLabel, backgroundLabel, maxWeight) == maxWeight
    ensures RegionalTerm(labels, v, foregroundLabel, foregroundLabel, backgroundLabel, maxWeight) == 0
  {
  }

  /** A voxel with neither label has no regional preference. */
  lemma UnlabelledVoxelFree(labels: Volume<int>, v: Index, l: int, foregroundLabel: int, backgroundLabel: int,
                            maxWeight: nat)
    requires labels.Valid() && labels.Contains(v)
    requires labels.At(v) != foregroundLabel && labels.At(v) != backgroundLabel
    ensures RegionalTerm(labels, v, l, foregroundLabel, backgroundLabel, maxWeight) == 0
  {
  }

  /**
   * For a positive maximum, the regional term is the hard-link weight exactly
   * when the label image holds the queried label (the background label for a
   * background query, the foreground label for any other), and 0 otherwise.
   */
  lemma RegionalTermHardLinkIff(labels: Volume<int>, v: Index, l: int, foregroundLabel: int, backgroundLabel: int,
                                maxWeight: nat)
    requires labels.Valid() && labels.Contains(v) && maxWeight > 0
    ensures RegionalTerm(labels, v, l, foregroundLabel, backgroundLabel, maxWeight) == maxWeight <==>
              labels.At(v) == (if l == backgroundLabel then backgroundLabel else foregroundLabel)
    ensures RegionalTerm(labels, v, l, foregroundLabel, backgroundLabel, maxWeight) == 0 <==>
              labels.At(v) != (if l == backgroundLabel then backgroundLabel else foregroundLabel)
  {
  }

  /** ComputeBoundaryTerm: static_cast<TWeight>(scale * gaussian(Ia - Ib)), truncating a non-negative value. */
  function BoundaryTerm(grey: Volume<real>, a: Index, b: Index, sigma: real, scale: nat,
                        g: (real, real) -> real): int
    requires grey.Valid() && grey.Contains(a) && grey.Contains(b)
  {
    ((scale as real) * g(sigma, grey.At(a) - grey.At(b))).Floor
  }

  lemma ScaledUnitBounds(scale: nat, x: real)
    requires 0.0 <= x <= 1.0
    ensures 0.0 <= (scale as real) * x <= scale as real
  {
    assert (scale as real) * x <= (scale as real) * 1.0;
  }

  /** The boundary term is a weight between 0 and the scale, and the full scale for equal intensities. */
  lemma BoundaryTermRange(grey: Volume<real>, a: Index, b: Index, sigma: real, scale: nat,
                          g: (real, real) -> real)
    requires grey.Valid() && grey.Contains(a) && grey.Contains(b) && GaussianLike(g)
    ensures 0 <= BoundaryTerm(grey, a, b, sigma, scale, g) <= scale
    ensures grey.At(a) == grey.At(b) ==> BoundaryTerm(grey, a, b, sigma, scale, g) == scale
  {
    var x := g(sigma, grey.At(a) - grey.At(b));
    ScaledUnitBounds(scale, x);
    if grey.At(a) == grey.At(b) {
      assert grey.At(a) - grey.At(b) == 0.0;
      assert x == 1.0;
    }
  }

  /** The boundary term does not depend on the direction of the pair. */
  lemma BoundaryTermSymmetric(grey: Volume<real>, a: Index, b: Index, sigma: real, scale: nat,
                              g: (real, real) -> real)
    requires grey.Valid() && grey.Contains(a) && grey.Contains(b) && GaussianLike(g)
    ensures BoundaryTerm(grey, a, b, sigma, scale, g) == BoundaryTerm(grey, b, a, sigma, scale, g)
  {
    assert (grey.At(a) - grey.At(b)) + (grey.At(b) - grey.At(a)) == 0.0;
  }

  function Sum(ws: seq<int>): int {
    if |ws| == 0 then 0 else Sum(ws[..|ws| - 1]) + ws[|ws| - 1]
  }

  lemma {:induction false} SumBound(ws: seq<int>, bound: int)
    requires forall i :: 0 <= i < |ws| ==> 0 <= ws[i] <= bound
    ensures 0 <= Sum(ws) <= |ws| * bound
  {
    if |ws| > 0 {
      var init := ws[..|ws| - 1];
      assert forall i :: 0 <= i < |init| ==> init[i] == ws[i];
      SumBound(init, bound);
      assert |ws| * bound == |init| * bound + bound;
    }
  }

  /**
   * The design constraint k = 1 + max sum B(p, q): with the default scale,
   * the boundary terms of at most six neighbours sum to less than the weight
   * maximum, so a hard link is never outweighed by the N-links of a voxel.
   */
  lemma {:induction false} NeighbourhoodBelowHardLink(maxWeight: nat, ws: seq<int>)
    requires maxWeight >= 1 && |ws| <= 6
    requires forall i :: 0 <= i < |ws| ==> 0 <= ws[i] <= DefaultWeightScale(maxWeight)
    ensures Sum(ws) + 1 <= maxWeight
  {
    var scale := DefaultWeightScale(maxWeight);
    SumBound(ws, scale);
    MulMonotone(|ws|, 6, scale);
    assert |ws| * scale <= 6 * scale;
  }

  /**
   * The graph-cut problem the standard filter poses: the ignore test reads
   * the filter's input, the regional term the label image, the boundary term
   * the grey image (all three over the same region).
   */
  function StandardProblem(input: Volume<int>, labels: Volume<int>, grey: Volume<real>,
                           ignoreMaskValue: int, foregroundLabel: int, backgroundLabel: int,
                           maxWeight: nat, params: Parameters, g: (real, real) -> real): Problem
  {
    Problem(input, ignoreMaskValue, foregroundLabel, backgroundLabel, maxWeight,
      (v, l) =>
        if labels.Valid() && labels.Contains(v)
        then RegionalTerm(labels, v, l, foregroundLabel, backgroundLabel, maxWeight) else 0,
      (a, b) =>
        if grey.Valid() && grey.Contains(a) && grey.Contains(b)
        then BoundaryTerm(grey, a, b, params.sigma, params.weightScale, g) else 0)
  }

  /** With a scale below the maximum, both terms yield valid weights, as GenerateData demands. */
  lemma StandardProblemValid(input: Volume<int>, labels: Volume<int>, grey: Volume<real>,
                             ignoreMaskValue: int, foregroundLabel: int, backgroundLabel: int,
                             maxWeight: nat, params: Parameters, g: (real, real) -> real)
    requires input.Valid() && GaussianLike(g) && params.weightScale <= maxWeight
    ensures StandardProblem(input, labels, grey, ignoreMaskValue, foregroundLabel, backgroundLabel,
                            maxWeight, params, g).Valid()
  {
    var p := StandardProblem(input, labels, grey, ignoreMaskValue, foregroundLabel, backgroundLabel,
                             maxWeight, params, g);
    forall a, b | input.Contains(a) && input.Contains(b)
      ensures 0 <= p.boundary(a, b) <= maxWeight
    {
      if grey.Valid() && grey.Contains(a) && grey.Contains(b) {
        BoundaryTermRange(grey, a, b, params.sigma, params.weightScale, g);
      }
    }
  }
}
