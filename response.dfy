/** The detector response of cosmogrb/response/response.py: a matrix with one
    row per photon-energy bin and one column per detector channel, the
    probabilities derived from it, the effective-area curve, the digitiser
    that turns photon energies into channels, and the folding of a flux
    through the matrix. Matrices are sequences of rows of equal width. */
module Responses {
  import opened Common
  import opened Sorting
  import opened Reductions

  type Matrix = seq<seq<real>>

  /** A two-dimensional array: every row has `cols` entries. */
  predicate Rectangular(m: Matrix, cols: nat) {
    forall i :: 0 <= i < |m| ==> |m[i]| == cols
  }

  /** What non-positive effective areas are replaced by. */
  const TinyArea: real := 1.0e-99

  /** The number of high-energy rows left out of the search for the peak of
      the effective area. */
  const PeakMargin: nat := 10

  // ---------------------------------------------------------------------
  // Energy bins

  /** `get_photon_bin`: the `searchsorted`-left position of the energy among
      the edges, minus one. */
  function PhotonBin(edges: seq<real>, e: real): (b: int)
    ensures -1 <= b < |edges|
  {
    SearchSortedLeft(edges, e) - 1
  }

  /** On sorted edges, bin k holds exactly the energies in
      (edges[k], edges[k+1]]; energies at or below the lowest edge get -1 and
      energies above the highest get the number of bins. */
  lemma PhotonBinBrackets(edges: seq<real>, e: real)
    requires NonDecreasing(edges)
    ensures forall k :: 0 <= k < |edges| - 1 ==>
              (PhotonBin(edges, e) == k <==> edges[k] < e <= edges[k + 1])
    ensures PhotonBin(edges, e) == -1 <==> edges == [] || e <= edges[0]
    ensures edges != [] ==> (PhotonBin(edges, e) == |edges| - 1 <==> edges[|edges| - 1] < e)
  {
    SearchSortedLeftSplits(edges, e);
    var p := SearchSortedLeft(edges, e);
    forall k | 0 <= k < |edges| - 1
      ensures PhotonBin(edges, e) == k <==> edges[k] < e <= edges[k + 1]
    {
      if edges[k] < e <= edges[k + 1] {
        assert p > k;
        assert p <= k + 1;
      }
    }
  }

  // ---------------------------------------------------------------------
  // The digitiser

  /** `|row - r|`, entry by entry. */
  function Distances(row: seq<real>, r: real): (d: seq<real>)
    ensures |d| == |row|
    ensures forall j :: 0 <= j < |row| ==> d[j] == (if row[j] >= r then row[j] - r else r - row[j])
  {
    seq(|row|, j requires 0 <= j < |row| => if row[j] >= r then row[j] - r else r - row[j])
  }

  /** `np.abs(row - r).argmin()`: the first column whose cumulative value is
      nearest to the uniform draw `r`. */
  function NearestColumn(row: seq<real>, r: real): (c: nat)
    requires |row| > 0
    ensures c < |row|
    ensures forall j :: 0 <= j < |row| ==> Distances(row, r)[c] <= Distances(row, r)[j]
    ensures forall j :: 0 <= j < c ==> Distances(row, r)[c] < Distances(row, r)[j]
  {
    ArgMin(Distances(row, r))
  }

  /** The row a photon is read from: its bin, where bin -1 reads the last row
      as numba's negative indexing does. */
  function RowOf(edges: seq<real>, rows: nat, e: real): int
  {
    var b := PhotonBin(edges, e);
    if b == -1 then rows - 1 else b
  }

  /** The channel one photon of energy `e` lands in for the uniform draw `r`.
      A row past the end of the matrix (an energy above the highest edge, or
      an empty matrix) is an IndexError; an empty row makes `argmin` raise a
      ValueError. */
  function Channel(edges: seq<real>, cum: Matrix, e: real, r: real): Result<nat>
  {
    var row := RowOf(edges, |cum|, e);
    if row < 0 || row >= |cum| then Err(IndexError)
    else if cum[row] == [] then Err(ValueError)
    else Ok(NearestColumn(cum[row], r))
  }

  /** `_digitize` over the first n photons: the first failing photon ends the
      run with its error, and a photon with no draw left is OutOfDraws. */
  function DigitizePrefix(energies: seq<real>, edges: seq<real>, cum: Matrix, draws: seq<real>, n: nat)
    : (r: Result<seq<nat>>)
    requires n <= |energies|
    ensures r.Ok? ==> |r.value| == n
  {
    if n == 0 then Ok([])
    else
      match DigitizePrefix(energies, edges, cum, draws, n - 1)
      case Err(err) => Err(err)
      case Ok(p) =>
        if n - 1 >= |draws| then Err(OutOfDraws)
        else
          match Channel(edges, cum, energies[n - 1], draws[n - 1])
          case Err(err) => Err(err)
          case Ok(c) => Ok(p + [c])
  }

  /** `_digitize(photon_energies, energy_edges, cum_matrix)`, with the
      uniform draws of `np.random.random()` passed in: one channel per
      photon, written into a fresh array. */
  method Digitize(energies: seq<real>, edges: seq<real>, cum: Matrix, draws: seq<real>)
      returns (r: Result<seq<nat>>)
    ensures r == DigitizePrefix(energies, edges, cum, draws, |energies|)
  {
    var pha := new nat[|energies|];
    var i := 0;
    while i < |energies|
      invariant 0 <= i <= |energies|
      invariant DigitizePrefix(energies, edges, cum, draws, i) == Ok(pha[..i])
    {
      if i >= |draws| {
        ErrorPersists(energies, edges, cum, draws, i + 1, |energies|);
        return Err(OutOfDraws);
      }
      var c := Channel(edges, cum, energies[i], draws[i]);
      if c.Err? {
        ErrorPersists(energies, edges, cum, draws, i + 1, |energies|);
        return Err(c.error);
      }
      pha[i] := c.value;
      assert pha[..i + 1] == pha[..i] + [c.value];
      i := i + 1;
    }
    assert pha[..i] == pha[..];
    return Ok(pha[..]);
  }

  /** Once a photon fails, the whole run fails with that error. */
  lemma {:induction false} ErrorPersists(energies: seq<real>, edges: seq<real>, cum: Matrix, draws: seq<real>, n: nat, m: nat)
    requires n <= m <= |energies|
    requires DigitizePrefix(energies, edges, cum, draws, n).Err?
    ensures DigitizePrefix(energies, edges, cum, draws, m) == DigitizePrefix(energies, edges, cum, draws, n)
    decreases m - n
  {
    if n < m {
      ErrorPersists(energies, edges, cum, draws, n, m - 1);
    }
  }

  /** A successful run gives one channel per photon, each the nearest
      cumulative value of its row to its draw, hence a valid column. */
  lemma {:induction false} DigitizeChannels(energies: seq<real>, edges: seq<real>, cum: Matrix, cols: nat,
                                           draws: seq<real>, n: nat)
    requires n <= |energies| && Rectangular(cum, cols)
    requires DigitizePrefix(energies, edges, cum, draws, n).Ok?
    ensures var s := DigitizePrefix(energies, edges, cum, draws, n).value;
            |s| == n && n <= |draws| &&
            forall i :: 0 <= i < n ==>
              Channel(edges, cum, energies[i], draws[i]) == Ok(s[i]) && s[i] < cols
  {
    if n > 0 {
      DigitizePrefixStep(energies, edges, cum, draws, n);
      DigitizeChannels(energies, edges, cum, cols, draws, n - 1);
      var s := DigitizePrefix(energies, edges, cum, draws, n).value;
      var p := DigitizePrefix(energies, edges, cum, draws, n - 1).value;
      forall i | 0 <= i < n
        ensures Channel(edges, cum, energies[i], draws[i]) == Ok(s[i]) && s[i] < cols
      {
        if i < n - 1 {
          assert s[i] == p[i];
        } else {
          var row := RowOf(edges, |cum|, energies[i]);
          assert s[i] == NearestColumn(cum[row], draws[i]);
        }
      }
    }
  }

  /** A successful run over n photons is the run over the first n-1 followed
      by the channel of the last. */
  lemma DigitizePrefixStep(energies: seq<real>, edges: seq<real>, cum: Matrix, draws: seq<real>, n: nat)
    requires 0 < n <= |energies| && DigitizePrefix(energies, edges, cum, draws, n).Ok?
    ensures n - 1 < |draws| && DigitizePrefix(energies, edges, cum, draws, n - 1).Ok?
    ensures Channel(edges, cum, energies[n - 1], draws[n - 1]).Ok?
    ensures DigitizePrefix(energies, edges, cum, draws, n).value ==
            DigitizePrefix(energies, edges, cum, draws, n - 1).value +
            [Channel(edges, cum, energies[n - 1], draws[n - 1]).value]
  {
  }

  /** A photon of energy `e` reads an existing, non-empty row. */
  predicate LandsInRow(edges: seq<real>, cum: Matrix, e: real)
  {
    var row := RowOf(edges, |cum|, e);
    0 <= row < |cum| && cum[row] != []
  }

  /** One photon is digitised exactly when it lands in a row. */
  lemma ChannelOkIff(edges: seq<real>, cum: Matrix, e: real, r: real)
    ensures Channel(edges, cum, e, r).Ok? <==> LandsInRow(edges, cum, e)
  {
  }

  /** The run succeeds exactly when there is a draw for every photon and
      every photon lands in an existing, non-empty row. */
  lemma {:induction false} DigitizeSucceedsIff(energies: seq<real>, edges: seq<real>, cum: Matrix,
                                              draws: seq<real>, n: nat)
    requires n <= |energies|
    ensures DigitizePrefix(energies, edges, cum, draws, n).Ok? <==>
            n <= |draws| && forall i :: 0 <= i < n ==> LandsInRow(edges, cum, energies[i])
  {
    if n > 0 {
      DigitizeSucceedsIff(energies, edges, cum, draws, n - 1);
      if n - 1 < |draws| {
        ChannelOkIff(edges, cum, energies[n - 1], draws[n - 1]);
      }
    }
  }

  // ---------------------------------------------------------------------
  // Probabilities

  /** `matrix.sum(axis=1)`. */
  function RowSums(m: Matrix): (r: seq<real>)
    ensures |r| == |m| && forall i :: 0 <= i < |m| ==> r[i] == Sum(m[i])
  {
    seq(|m|, i requires 0 <= i < |m| => Sum(m[i]))
  }

  /** `matrix / geometric_area`: a new matrix. */
  function DivideAll(m: Matrix, area: real): (r: Matrix)
    requires area != 0.0
    ensures |r| == |m| && forall i :: 0 <= i < |m| ==> r[i] == Scale(m[i], 1.0 / area)
  {
    seq(|m|, i requires 0 <= i < |m| => Scale(m[i], 1.0 / area))
  }

  /** Rows with a positive total divided by it; other rows as they were. */
  function Normalized(m: Matrix, totals: seq<real>): (r: Matrix)
    requires |totals| == |m|
    ensures |r| == |m|
  {
    seq(|m|, i requires 0 <= i < |m| => if totals[i] > 0.0 then Scale(m[i], 1.0 / totals[i]) else m[i])
  }

  /** `np.cumsum(matrix, axis=1)`. */
  function CumulativeRows(m: Matrix): (r: Matrix)
    ensures |r| == |m| && forall i :: 0 <= i < |m| ==> r[i] == CumSum(m[i])
  {
    seq(|m|, i requires 0 <= i < |m| => CumSum(m[i]))
  }

  /** The in-place division of `_construct_probabilities`: every row of the
      shared array with a positive total is divided by that total. */
  method NormalizeRows(rows: array<seq<real>>, totals: seq<real>)
    requires rows.Length == |totals|
    modifies rows
    ensures rows[..] == Normalized(old(rows[..]), totals)
  {
    var i := 0;
    while i < rows.Length
      invariant 0 <= i <= rows.Length
      invariant forall k {:trigger rows[k]} :: 0 <= k < i ==>
                  rows[k] == (if totals[k] > 0.0 then Scale(old(rows[k]), 1.0 / totals[k]) else old(rows[k]))
      invariant forall k {:trigger rows[k]} :: i <= k < rows.Length ==> rows[k] == old(rows[k])
    {
      if totals[i] > 0.0 {
        rows[i] := Scale(rows[i], 1.0 / totals[i]);
      }
      i := i + 1;
    }
  }

  /** What `_construct_probabilities` leaves behind. The probability matrix
      and the normalised matrix are one array, so both end up normalised. */
  datatype Probabilities = Probabilities(
    probabilityMatrix: Matrix,
    totalProbabilityPerBin: seq<real>,
    normedProbabilityMatrix: Matrix,
    cumulativeMatrix: Matrix)

  method ConstructProbabilities(matrix: Matrix, geometricArea: real) returns (p: Probabilities)
    requires geometricArea != 0.0
    ensures p.totalProbabilityPerBin == RowSums(DivideAll(matrix, geometricArea))
    ensures p.normedProbabilityMatrix == Normalized(DivideAll(matrix, geometricArea), p.totalProbabilityPerBin)
    ensures p.probabilityMatrix == p.normedProbabilityMatrix
    ensures p.cumulativeMatrix == CumulativeRows(p.normedProbabilityMatrix)
  {
    var probability := DivideAll(matrix, geometricArea);
    var totals := RowSums(probability);
    var shared := new seq<real>[|probability|];
    forall i | 0 <= i < shared.Length {
      shared[i] := probability[i];
    }
    assert shared[..] == probability;
    NormalizeRows(shared, totals);
    p := Probabilities(shared[..], totals, shared[..], CumulativeRows(shared[..]));
  }

  /** A row with a positive total sums to one after normalisation; every
      other row is left as it was. */
  lemma NormalizedRows(m: Matrix, i: nat)
    requires i < |m|
    ensures Sum(m[i]) > 0.0 ==> Sum(Normalized(m, RowSums(m))[i]) == 1.0
    ensures Sum(m[i]) <= 0.0 ==> Normalized(m, RowSums(m))[i] == m[i]
  {
    if Sum(m[i]) > 0.0 {
      SumScale(m[i], 1.0 / Sum(m[i]));
    }
  }

  /** Dividing a non-negative row by a positive area keeps it non-negative
      and keeps its total positive exactly when it was. */
  lemma ScaledRowSign(row: seq<real>, area: real)
    requires area > 0.0 && NonNegative(row)
    ensures NonNegative(Scale(row, 1.0 / area))
    ensures Sum(Scale(row, 1.0 / area)) > 0.0 <==> Sum(row) > 0.0
  {
    SumScale(row, 1.0 / area);
    SumNonNegative(row);
  }

  /** A non-negative row, divided by its total when that is positive, stays
      non-negative and sums to one, or to zero when the total was not
      positive. */
  lemma NormalizedRowSum(row: seq<real>)
    requires NonNegative(row)
    ensures var t := Sum(row);
            var r := if t > 0.0 then Scale(row, 1.0 / t) else row;
            NonNegative(r) && Sum(r) == (if t > 0.0 then 1.0 else 0.0)
  {
    SumNonNegative(row);
    var t := Sum(row);
    if t > 0.0 {
      var c := 1.0 / t;
      assert c > 0.0 && c * t == 1.0;
      SumScale(row, c);
      ScaleNonNegative(row, c);
    }
  }

  lemma ScaleNonNegative(row: seq<real>, c: real)
    requires c > 0.0 && NonNegative(row)
    ensures NonNegative(Scale(row, c))
  {
    forall k | 0 <= k < |row| ensures 0.0 <= Scale(row, c)[k] {
      assert 0.0 <= c * row[k];
    }
  }

  /** For a non-negative matrix and a positive area, each cumulative row
      never decreases and ends at one, or at zero for a row with no
      probability at all. */
  lemma CumulativeRowsOfNonNegative(matrix: Matrix, area: real, i: nat)
    requires area > 0.0 && i < |matrix| && |matrix[i]| > 0
    requires forall k :: 0 <= k < |matrix| ==> NonNegative(matrix[k])
    ensures var p := DivideAll(matrix, area);
            var c := CumulativeRows(Normalized(p, RowSums(p)))[i];
            NonDecreasing(c) &&
            c[|c| - 1] == (if Sum(matrix[i]) > 0.0 then 1.0 else 0.0)
  {
    var p := DivideAll(matrix, area);
    ScaledRowSign(matrix[i], area);
    NormalizedRowSum(p[i]);
    var row := Normalized(p, RowSums(p))[i];
    assert row == if Sum(p[i]) > 0.0 then Scale(p[i], 1.0 / Sum(p[i])) else p[i];
    CumSumOfNonNegative(row);
  }

  // ---------------------------------------------------------------------
  // Effective area

  /** `ea_curve[~(ea_curve > 0)] = 1e-99`, in place. */
  method FloorNonPositive(ea: array<real>)
    modifies ea
    ensures forall k :: 0 <= k < ea.Length ==>
              0.0 < ea[k] &&
              (old(ea[k]) > 0.0 ==> ea[k] == old(ea[k])) &&
              (old(ea[k]) <= 0.0 ==> ea[k] == TinyArea)
  {
    var i := 0;
    while i < ea.Length
      invariant 0 <= i <= ea.Length
      invariant forall k {:trigger ea[k]} :: 0 <= k < i ==>
                  0.0 < ea[k] && (old(ea[k]) > 0.0 ==> ea[k] == old(ea[k])) &&
                  (old(ea[k]) <= 0.0 ==> ea[k] == TinyArea)
      invariant forall k {:trigger ea[k]} :: i <= k < ea.Length ==> ea[k] == old(ea[k])
    {
      if !(ea[i] > 0.0) {
        ea[i] := TinyArea;
      }
      i := i + 1;
    }
  }

  /** `ea_curve[:-10].argmax()`: the peak among all rows but the last ten;
      with ten rows or fewer the slice is empty and `argmax` raises. */
  function PeakRow(ea: seq<real>): (r: Result<nat>)
    ensures r.Ok? <==> |ea| > PeakMargin
    ensures r.Ok? ==> (r.value < |ea| - PeakMargin &&
                       (forall j :: 0 <= j < |ea| - PeakMargin ==> ea[j] <= ea[r.value]) &&
                       (forall j :: 0 <= j < r.value ==> ea[j] < ea[r.value]))
    ensures r.Err? ==> r.error == ValueError
  {
    if |ea| <= PeakMargin then Err(ValueError) else Ok(ArgMax(ea[..|ea| - PeakMargin]))
  }

  // ---------------------------------------------------------------------
  // The response object

  datatype Response = Response(
    matrix: Matrix,
    geometricArea: real,
    energyEdges: seq<real>,
    energyWidth: seq<real>,
    energyMean: seq<real>,
    emin: real,
    emax: real,
    channelEdges: seq<real>,
    channelWidth: seq<real>,
    channelMean: seq<real>,
    channels: seq<nat>,
    effectiveAreaCurve: seq<real>,
    maxEnergy: real,
    probabilities: Probabilities)

  /** `Response(matrix, geometric_area, energy_edges, channel_edges)`: the
      derived bins and channels, the effective-area curve with its peak, and
      the probabilities. An empty edge array fails on `edges[0]`, missing
      channel edges fail on `None.astype`, and too few rows (or a peak row
      with no matching energy bin) fail in the effective-area step. */
  method NewResponse(matrix: Matrix, cols: nat, geometricArea: real, energyEdges: seq<real>,
                     channelEdges: Option<seq<real>>)
      returns (r: Result<Response>)
    requires Rectangular(matrix, cols) && geometricArea != 0.0
    ensures energyEdges == [] ==> r == Err(IndexError)
    ensures energyEdges != [] && channelEdges.None? ==> r == Err(AttributeError)
    ensures energyEdges != [] && channelEdges.Some? && |matrix| <= PeakMargin ==> r == Err(ValueError)
    ensures r.Ok? ==>
              var resp := r.value;
              var mean := MidPoints(energyEdges);
              var peak := PeakRow(resp.effectiveAreaCurve);
              energyEdges != [] && channelEdges.Some? &&
              resp.matrix == matrix && resp.geometricArea == geometricArea &&
              resp.energyEdges == energyEdges && resp.channelEdges == channelEdges.value &&
              resp.energyWidth == Diff(energyEdges) && resp.energyMean == mean &&
              resp.emin == energyEdges[0] && resp.emax == energyEdges[|energyEdges| - 1] &&
              resp.channelWidth == Diff(channelEdges.value) &&
              resp.channelMean == MidPoints(channelEdges.value) &&
              resp.channels == Identity(|Diff(channelEdges.value)|) &&
              |resp.effectiveAreaCurve| == |matrix| &&
              (forall k :: 0 <= k < |matrix| ==>
                 resp.effectiveAreaCurve[k] == if Sum(matrix[k]) > 0.0 then Sum(matrix[k]) else TinyArea) &&
              peak.Ok? && peak.value < |mean| && resp.maxEnergy == mean[peak.value]
    ensures r.Ok? ==>
              var p := DivideAll(matrix, geometricArea);
              r.value.probabilities.totalProbabilityPerBin == RowSums(p) &&
              r.value.probabilities.normedProbabilityMatrix == Normalized(p, RowSums(p)) &&
              r.value.probabilities.cumulativeMatrix == CumulativeRows(Normalized(p, RowSums(p)))
  {
    if energyEdges == [] {
      return Err(IndexError);
    }
    if channelEdges.None? {
      return Err(AttributeError);
    }
    var mean := MidPoints(energyEdges);
    var sums := RowSums(matrix);
    var ea := new real[|sums|](k requires 0 <= k < |sums| => sums[k]);
    FloorNonPositive(ea);
    var peak := PeakRow(ea[..]);
    if peak.Err? {
      return Err(peak.error);
    }
    if peak.value >= |mean| {
      return Err(IndexError);
    }
    var probs := ConstructProbabilities(matrix, geometricArea);
    var edges := channelEdges.value;
    r := Ok(Response(matrix, geometricArea, energyEdges, Diff(energyEdges), mean,
                     energyEdges[0], energyEdges[|energyEdges| - 1],
                     edges, Diff(edges), MidPoints(edges), Identity(|Diff(edges)|),
                     ea[..], mean[peak.value], probs));
  }

  /** `Response.digitize`: `_digitize` on the response's own edges and
      cumulative matrix. */
  method DigitizeWith(resp: Response, energies: seq<real>, draws: seq<real>) returns (r: Result<seq<nat>>)
    ensures r == DigitizePrefix(energies, resp.energyEdges, resp.probabilities.cumulativeMatrix, draws, |energies|)
  {
    r := Digitize(energies, resp.energyEdges, resp.probabilities.cumulativeMatrix, draws);
  }

  // ---------------------------------------------------------------------
  // Folding a flux through the matrix

  /** A flux value, `None` standing for a non-finite one. */
  function Finite(f: Option<real>): real {
    match f
    case Some(v) => v
    case None => 0.0
  }

  /** Σᵢ f[i]·m[i][j]. */
  function Column(f: seq<real>, m: Matrix, cols: nat, j: nat): real
    requires |f| == |m| && Rectangular(m, cols) && j < cols
  {
    Sum(seq(|m|, i requires 0 <= i < |m| => f[i] * m[i][j]))
  }

  /** `convolve`: non-finite fluxes set to zero, then `np.dot(fluxes, matrix)`;
      arrays whose lengths do not line up make `np.dot` raise. */
  function Convolve(fluxes: seq<Option<real>>, m: Matrix, cols: nat): (r: Result<seq<real>>)
    requires Rectangular(m, cols)
    ensures r.Ok? <==> |fluxes| == |m|
    ensures r.Err? ==> r.error == ValueError
    ensures r.Ok? ==> |r.value| == cols
  {
    if |fluxes| != |m| then Err(ValueError)
    else
      var f := seq(|m|, i requires 0 <= i < |m| => Finite(fluxes[i]));
      Ok(seq(cols, j requires 0 <= j < cols => Column(f, m, cols, j)))
  }

  /** A non-finite flux contributes exactly what a zero flux does. */
  lemma ConvolveZeroesNonFinite(fluxes: seq<Option<real>>, m: Matrix, cols: nat, k: nat)
    requires Rectangular(m, cols) && k < |fluxes| && fluxes[k].None?
    ensures Convolve(fluxes, m, cols) == Convolve(fluxes[k := Some(0.0)], m, cols)
  {
    if |fluxes| == |m| {
      var f := seq(|m|, i requires 0 <= i < |m| => Finite(fluxes[i]));
      var g := seq(|m|, i requires 0 <= i < |m| => Finite(fluxes[k := Some(0.0)][i]));
      assert f == g;
    }
  }

  /** A unit flux in energy bin k and nothing elsewhere folds to row k. */
  lemma ConvolveUnitFlux(m: Matrix, cols: nat, k: nat)
    requires Rectangular(m, cols) && k < |m|
    ensures var unit := seq(|m|, i requires 0 <= i < |m| => if i == k then Some(1.0) else Some(0.0));
            Convolve(unit, m, cols) == Ok(m[k])
  {
    var unit := seq(|m|, i requires 0 <= i < |m| => if i == k then Some(1.0) else Some(0.0));
    var f := seq(|m|, i requires 0 <= i < |m| => Finite(unit[i]));
    forall j | 0 <= j < cols ensures Column(f, m, cols, j) == m[k][j] {
      var terms := seq(|m|, i requires 0 <= i < |m| => f[i] * m[i][j]);
      SumOfSingle(terms, k);
    }
    assert seq(cols, j requires 0 <= j < cols => Column(f, m, cols, j)) == m[k];
  }

  /** A sum with one possibly non-zero term is that term. */
  lemma {:induction false} SumOfSingle(s: seq<real>, k: nat)
    requires k < |s| && forall i :: 0 <= i < |s| && i != k ==> s[i] == 0.0
    ensures Sum(s) == s[k]
  {
    if |s| - 1 == k {
      AllZeroSum(s[..k]);
    } else {
      SumOfSingle(s[..|s| - 1], k);
    }
  }

  lemma {:induction false} AllZeroSum(s: seq<real>)
    requires forall i :: 0 <= i < |s| ==> s[i] == 0.0
    ensures Sum(s) == 0.0
  {
    if s != [] {
      AllZeroSum(s[..|s| - 1]);
    }
  }
}
