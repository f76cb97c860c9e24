/**
 * ModifiedSheetnessGraphCutImageFilter: regional terms hard-linked from the
 * filter's own input, and a directed boundary term on a sheetness image that
 * makes cuts across an edge in one direction cheap and in the other expensive.
 */
module ModifiedSheetness {
  import opened Grid
  import opened Images
  import opened GraphCutFilter
  import StandardFilter

  /** The default sigma of the Gaussian. */
  const DefaultSigma: real := 0.1

  /** Boundary directions: cut bright-to-dark, no direction, cut dark-to-bright. */
  const BrightToDark := 1
  const NoDirection := 0
  const DarkToBright := -1

  /**
   * ComputeRegionalTerm: a voxel whose input value is the foreground label is
   * hard-linked to the foreground, one whose value is the background label to
   * the background; any other voxel gets 0 for both labels.
   */
  function RegionalTerm(input: Volume<int>, v: Index, l: int, foregroundLabel: int, backgroundLabel: int,
                        maxWeight: nat): (w: int)
    requires input.Valid() && input.Contains(v)
    ensures w == 0 || w == maxWeight
  {
    if input.At(v) == foregroundLabel then
      (if l == foregroundLabel then maxWeight else 0)
    else if input.At(v) == backgroundLabel then
      (if l == backgroundLabel then maxWeight else 0)
    else
      0
  }

  /** Seeds are hard-linked to their own label and free of the other; other voxels are free. */
  lemma RegionalSeeds(input: Volume<int>, v: Index, foregroundLabel: int, backgroundLabel: int, maxWeight: nat)
    requires input.Valid() && input.Contains(v) && foregroundLabel != backgroundLabel
    ensures input.At(v) == foregroundLabel ==>
              RegionalTerm(input, v, foregroundLabel, foregroundLabel, backgroundLabel, maxWeight) == maxWeight &&
              RegionalTerm(input, v, backgroundLabel, foregroundLabel, backgroundLabel, maxWeight) == 0
    ensures input.At(v) == backgroundLabel ==>
              RegionalTerm(input, v, backgroundLabel, foregroundLabel, backgroundLabel, maxWeight) == maxWeight &&
              RegionalTerm(input, v, foregroundLabel, foregroundLabel, backgroundLabel, maxWeight) == 0
    ensures input.At(v) != foregroundLabel && input.At(v) != backgroundLabel ==>
              RegionalTerm(input, v, foregroundLabel, foregroundLabel, backgroundLabel, maxWeight) == 0 &&
              RegionalTerm(input, v, backgroundLabel, foregroundLabel, backgroundLabel, maxWeight) == 0
  {
  }

  /** The boundary term takes the Gaussian branch when direction * (Ia - Ib) >= 0. */
  predicate TakesGaussianBranch(sheetness: Volume<real>, a: Index, b: Index, direction: int)
    requires sheetness.Valid() && sheetness.Contains(a) && sheetness.Contains(b)
  {
    (direction as real) * (sheetness.At(a) - sheetness.At(b)) >= 0.0
  }

  /**
   * ComputeBoundaryTerm: the Gaussian of the difference, truncated to the
   * weight type, on the Gaussian branch; weight 1 otherwise.
   */
  function BoundaryTerm(sheetness: Volume<real>, a: Index, b: Index, sigma: real, direction: int,
                        g: (real, real) -> real): int
    requires sheetness.Valid() && sheetness.Contains(a) && sheetness.Contains(b)
  {
    if TakesGaussianBranch(sheetness, a, b, direction) then
      g(sigma, sheetness.At(a) - sheetness.At(b)).Floor
    else
      1
  }

  /** Every boundary term is 0 or 1, and 1 between equal values. */
  lemma BoundaryTermBinary(sheetness: Volume<real>, a: Index, b: Index, sigma: real, direction: int,
                           g: (real, real) -> real)
    requires sheetness.Valid() && sheetness.Contains(a) && sheetness.Contains(b)
    requires StandardFilter.GaussianLike(g)
    ensures BoundaryTerm(sheetness, a, b, sigma, direction, g) in {0, 1}
    ensures sheetness.At(a) == sheetness.At(b) ==> BoundaryTerm(sheetness, a, b, sigma, direction, g) == 1
  {
    var x := g(sigma, sheetness.At(a) - sheetness.At(b));
    assert 0.0 <= x <= 1.0;
    if sheetness.At(a) == sheetness.At(b) {
      assert sheetness.At(a) - sheetness.At(b) == 0.0;
      assert TakesGaussianBranch(sheetness, a, b, direction);
      assert x == 1.0;
    }
  }

  /** With no direction every pair takes the Gaussian branch, in both orders. */
  lemma NoDirectionIsGaussian(sheetness: Volume<real>, a: Index, b: Index)
    requires sheetness.Valid() && sheetness.Contains(a) && sheetness.Contains(b)
    ensures TakesGaussianBranch(sheetness, a, b, NoDirection)
    ensures TakesGaussianBranch(sheetness, b, a, NoDirection)
  {
  }

  /**
   * With a direction, a pair of different values takes the Gaussian branch in
   * exactly one order, and the other order costs the full weight 1.
   */
  lemma DirectedTermAsymmetric(sheetness: Volume<real>, a: Index, b: Index, sigma: real, direction: int,
                               g: (real, real) -> real)
    requires sheetness.Valid() && sheetness.Contains(a) && sheetness.Contains(b)
    requires direction == BrightToDark || direction == DarkToBright
    requires sheetness.At(a) != sheetness.At(b)
    ensures TakesGaussianBranch(sheetness, a, b, direction) != TakesGaussianBranch(sheetness, b, a, direction)
    ensures !TakesGaussianBranch(sheetness, a, b, direction) ==> BoundaryTerm(sheetness, a, b, sigma, direction, g) == 1
    ensures !TakesGaussianBranch(sheetness, b, a, direction) ==> BoundaryTerm(sheetness, b, a, sigma, direction, g) == 1
  {
    var d := sheetness.At(a) - sheetness.At(b);
    assert sheetness.At(b) - sheetness.At(a) == -d;
  }

  /** Bright-to-dark: a step down from a to b takes the Gaussian, a step up costs 1. */
  lemma BrightToDarkDirection(sheetness: Volume<real>, a: Index, b: Index, sigma: real, g: (real, real) -> real)
    requires sheetness.Valid() && sheetness.Contains(a) && sheetness.Contains(b)
    ensures sheetness.At(a) >= sheetness.At(b) ==> TakesGaussianBranch(sheetness, a, b, BrightToDark)
    ensures sheetness.At(a) < sheetness.At(b) ==> BoundaryTerm(sheetness, a, b, sigma, BrightToDark, g) == 1
  {
  }

  /**
   * The graph-cut problem the sheetness filter poses: the filter's input is
   * both the ignore mask and the label image, the sheetness image feeds the
   * boundary term.
   */
  function SheetnessProblem(input: Volume<int>, sheetness: Volume<real>,
                            ignoreMaskValue: int, foregroundLabel: int, backgroundLabel: int,
                            maxWeight: nat, sigma: real, direction: int, g: (real, real) -> real): Problem
  {
    Problem(input, ignoreMaskValue, foregroundLabel, backgroundLabel, maxWeight,
      (v, l) =>
        if input.Valid() && input.Contains(v)
        then RegionalTerm(input, v, l, foregroundLabel, backgroundLabel, maxWeight) else 0,
      (a, b) =>
        if sheetness.Valid() && sheetness.Contains(a) && sheetness.Contains(b)
        then BoundaryTerm(sheetness, a, b, sigma, direction, g) else 0)
  }

  /** For any weight type with a maximum of at least 1, both terms yield valid weights. */
  lemma SheetnessProblemValid(input: Volume<int>, sheetness: Volume<real>,
                              ignoreMaskValue: int, foregroundLabel: int, backgroundLabel: int,
                              maxWeight: nat, sigma: real, direction: int, g: (real, real) -> real)
    requires input.Valid() && StandardFilter.GaussianLike(g) && maxWeight >= 1
    ensures SheetnessProblem(input, sheetness, ignoreMaskValue, foregroundLabel, backgroundLabel,
                             maxWeight, sigma, direction, g).Valid()
  {
    var p := SheetnessProblem(input, sheetness, ignoreMaskValue, foregroundLabel, backgroundLabel,
                              maxWeight, sigma, direction, g);
    forall a, b | input.Contains(a) && input.Contains(b)
      ensures 0 <= p.boundary(a, b) <= maxWeight
    {
      if sheetness.Valid() && sheetness.Contains(a) && sheetness.Contains(b) {
        BoundaryTermBinary(sheetness, a, b, sigma, direction, g);
      }
    }
  }

  /** The filter's own settings: sigma and the boundary direction. */
  class ModifiedSheetnessGraphCutImageFilter {
    var sigma: real
    var boundaryDirection: int
    /** The ITK modification time, bumped by Modified(). */
    var modifiedTime: nat

    /** The boundary direction is one of the three the setters produce. */
    predicate Valid()
      reads this
    {
      boundaryDirection in {BrightToDark, NoDirection, DarkToBright}
    }

    /** Defaults: sigma 0.1, cut bright-to-dark. */
    constructor ()
      ensures Valid()
      ensures sigma == 0.1 && boundaryDirection == BrightToDark
    {
      sigma := DefaultSigma;
      boundaryDirection := BrightToDark;
      modifiedTime := 0;
    }

    /** itkSetMacro(Sigma): stores the value and calls Modified() only when it changes. */
    method SetSigma(s: real)
      requires Valid()
      modifies this
      ensures Valid()
      ensures sigma == s && boundaryDirection == old(boundaryDirection)
      ensures modifiedTime == if old(sigma) == s then old(modifiedTime) else old(modifiedTime) + 1
    {
      if sigma != s {
        sigma := s;
        modifiedTime := modifiedTime + 1;
      }
    }

    /** itkGetMacro(Sigma). */
    function GetSigma(): (s: real)
      reads this
      ensures s == sigma
    {
      sigma
    }

    method CutBrightToDarkOn()
      requires Valid()
      modifies this`boundaryDirection
      ensures Valid() && boundaryDirection == BrightToDark
    {
      boundaryDirection := BrightToDark;
    }

    method CutDarkToBrightOn()
      requires Valid()
      modifies this`boundaryDirection
      ensures Valid() && boundaryDirection == DarkToBright
    {
      boundaryDirection := DarkToBright;
    }

    method CutNoDirection()
      requires Valid()
      modifies this`boundaryDirection
      ensures Valid() && boundaryDirection == NoDirection
    {
      boundaryDirection := NoDirection;
    }

    /** CutBrightToDark(b): bright-to-dark when b, dark-to-bright otherwise; never undirected. */
    method CutBrightToDark(brightToDark: bool)
      requires Valid()
      modifies this`boundaryDirection
      ensures Valid()
      ensures boundaryDirection == if brightToDark then BrightToDark else DarkToBright
      ensures boundaryDirection != NoDirection
    {
      if brightToDark {
        CutBrightToDarkOn();
      } else {
        CutDarkToBrightOn();
      }
    }

    /** The problem this filter poses on an input and a sheetness image. */
    function ProblemFor(base: GraphCutImageFilter, input: Volume<int>, sheetness: Volume<real>,
                        maxWeight: nat, g: (real, real) -> real): Problem
      reads this, base
    {
      SheetnessProblem(input, sheetness, base.ignoreMaskValue, base.foregroundLabel, base.backgroundLabel,
                       maxWeight, sigma, boundaryDirection, g)
    }
  }
}
