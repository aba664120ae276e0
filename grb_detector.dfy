/** The detector base of cosmogrb/grb/grb_detector.py: it opens a saved
    GRB, checks that every light curve in it was made for its instrument,
    starts undetected with no extra information, and derives the name of
    the file its verdict would be written to. Reading the saved file is not
    part of this model: the loaded record is passed in. */
module GrbDetectors {
  import opened Common

  // ---------------------------------------------------------------------
  // str.split and str.join on one separator character

  /** `s.split(c)`: the pieces between separators, one more than there are
      separators; an empty string gives one empty piece. */
  function Split(s: string, c: char): (parts: seq<string>)
    ensures |parts| >= 1
  {
    if s == [] then [[]]
    else
      var p := Split(s[..|s| - 1], c);
      if s[|s| - 1] == c then p + [[]]
      else p[..|p| - 1] + [p[|p| - 1] + [s[|s| - 1]]]
  }

  /** `c.join(parts)`. */
  function Join(parts: seq<string>, c: char): string
  {
    if parts == [] then []
    else if |parts| == 1 then parts[0]
    else Join(parts[..|parts| - 1], c) + [c] + parts[|parts| - 1]
  }

  /** Appending a piece appends the separator and the piece. */
  lemma JoinAppend(parts: seq<string>, c: char, piece: string)
    requires parts != []
    ensures Join(parts + [piece], c) == Join(parts, c) + [c] + piece
  {
    assert (parts + [piece])[..|parts|] == parts;
  }

  /** Extending the last piece extends the joined string. */
  lemma JoinExtendLast(parts: seq<string>, c: char, x: char)
    requires parts != []
    ensures Join(parts[..|parts| - 1] + [parts[|parts| - 1] + [x]], c) == Join(parts, c) + [x]
  {
    var n := |parts|;
    if n > 1 {
      JoinAppend(parts[..n - 1], c, parts[n - 1] + [x]);
      JoinAppend(parts[..n - 1], c, parts[n - 1]);
      assert parts[..n - 1] + [parts[n - 1]] == parts;
    }
  }

  /** Joining the pieces of a split gives the string back. */
  lemma {:induction false} SplitJoin(s: string, c: char)
    ensures Join(Split(s, c), c) == s
  {
    if s != [] {
      var s' := s[..|s| - 1];
      var x := s[|s| - 1];
      SplitJoin(s', c);
      var p' := Split(s', c);
      assert s == s' + [x];
      if x == c {
        JoinAppend(p', c, []);
      } else {
        JoinExtendLast(p', c, x);
      }
    }
  }

  /** No piece of a split holds the separator. */
  lemma {:induction false} SplitPiecesLackSeparator(s: string, c: char)
    ensures forall k :: 0 <= k < |Split(s, c)| ==> c !in Split(s, c)[k]
  {
    if s != [] {
      var s' := s[..|s| - 1];
      SplitPiecesLackSeparator(s', c);
      var p' := Split(s', c);
      var p := Split(s, c);
      if s[|s| - 1] != c {
        forall k | 0 <= k < |p| ensures c !in p[k] {
          if k < |p'| - 1 {
            assert p[k] == p'[k];
          }
        }
      }
    }
  }

  /** There is a single piece exactly when the string has no separator. */
  lemma {:induction false} SplitSingleIff(s: string, c: char)
    ensures |Split(s, c)| == 1 <==> c !in s
  {
    if s != [] {
      var s' := s[..|s| - 1];
      SplitSingleIff(s', c);
      assert s == s' + [s[|s| - 1]];
      assert c in s <==> c in s' || s[|s| - 1] == c;
    }
  }

  // ---------------------------------------------------------------------
  // The output file name

  const DetectionInfoSuffix: string := "_detection_info.h5"

  /** `".".join(name.split(".")[:-1]) + "_detection_info.h5"`. */
  function OutFileName(saveFileName: string): string
  {
    var parts := Split(saveFileName, '.');
    Join(parts[..|parts| - 1], '.') + DetectionInfoSuffix
  }

  /** A string holding the separator is the join of all pieces but the
      last, the separator, and the last piece, which holds no separator. */
  lemma SplitAroundLastSeparator(s: string, c: char)
    requires c in s
    ensures var p := Split(s, c);
            |p| >= 2 && s == Join(p[..|p| - 1], c) + [c] + p[|p| - 1] && c !in p[|p| - 1]
  {
    var p := Split(s, c);
    SplitJoin(s, c);
    SplitPiecesLackSeparator(s, c);
    SplitSingleIff(s, c);
    JoinAppend(p[..|p| - 1], c, p[|p| - 1]);
    assert p[..|p| - 1] + [p[|p| - 1]] == p;
  }

  /** In `head + [c] + tail` the separator sits at `|head|`, with `head`
      before it and `tail` after it. */
  lemma AroundPosition(s: string, head: string, c: char, tail: string)
    requires s == head + [c] + tail
    ensures |head| < |s| && s[|head|] == c && s[..|head|] == head && s[|head| + 1..] == tail
  {
  }

  /** Only the last extension is removed: for the position of the last dot
      the output name is everything before it, followed by the suffix. */
  lemma OutFileNameStripsLastExtension(saveFileName: string, k: nat)
    requires k < |saveFileName| && saveFileName[k] == '.' && '.' !in saveFileName[k + 1..]
    ensures OutFileName(saveFileName) == saveFileName[..k] + DetectionInfoSuffix
  {
    var p := Split(saveFileName, '.');
    var head := Join(p[..|p| - 1], '.');
    assert '.' in saveFileName;
    SplitAroundLastSeparator(saveFileName, '.');
    AroundPosition(saveFileName, head, '.', p[|p| - 1]);
    LastDotUnique(saveFileName, |head|, k);
  }

  /** Two positions of the last dot are the same position. */
  lemma LastDotUnique(s: string, h: nat, k: nat)
    requires h < |s| && s[h] == '.' && '.' !in s[h + 1..]
    requires k < |s| && s[k] == '.' && '.' !in s[k + 1..]
    ensures h == k
  {
  }

  /** A name without a dot keeps nothing of itself. */
  lemma OutFileNameWithoutDot(saveFileName: string)
    requires '.' !in saveFileName
    ensures OutFileName(saveFileName) == DetectionInfoSuffix
  {
    SplitSingleIff(saveFileName, '.');
  }

  /** "a.b.h5" keeps its inner dot. */
  lemma OutFileNameExample()
    ensures OutFileName("a.b.h5") == "a.b_detection_info.h5"
  {
    var s := "a.b.h5";
    assert s[4..] == "h5";
    OutFileNameStripsLastExtension(s, 3);
  }

  // ---------------------------------------------------------------------
  // The saved GRB and the detector base

  /** One detector's light curve in the saved GRB: its name, the
      instrument it was made for and its angle to the burst. */
  datatype SavedDetector = SavedDetector(name: string, instrument: string, angle: real)

  /** The saved GRB: its name and its detectors in file order. */
  datatype GrbSave = GrbSave(name: string, detectors: seq<SavedDetector>)

  /** What the detector base stores under `extra_info`. */
  datatype InfoValue = NameList(names: seq<string>) | RealList(values: seq<real>)

  predicate MadeFor(save: GrbSave, instrument: string)
  {
    forall k :: 0 <= k < |save.detectors| ==> save.detectors[k].instrument == instrument
  }

  /** `GRBDetector` after its constructor has run. */
  class GrbDetector {
    const save: GrbSave
    const name: string
    const instrument: string
    const outFileName: string
    var isDetected: bool
    var extraInfo: map<string, InfoValue>

    constructor (saveFileName: string, save: GrbSave, instrument: string)
      ensures this.save == save && name == save.name && this.instrument == instrument
      ensures outFileName == OutFileName(saveFileName)
      ensures !isDetected && extraInfo == map[]
    {
      this.save := save;
      name := save.name;
      this.instrument := instrument;
      outFileName := OutFileName(saveFileName);
      isDetected := false;
      extraInfo := map[];
    }
  }

  /** `GRBDetector(grb_save_file_name, instrument)` as intended:
      AssertionError when a light curve was made for another instrument,
      otherwise a fresh, undetected detector. As written the saved record
      has no `items` and its light curves no `instrument`, so construction
      fails with AttributeError. */
  method OpenDetector(saveFileName: string, save: GrbSave, instrument: string) returns (r: Result<GrbDetector>)
    ensures r.Err? <==> !MadeFor(save, instrument)
    ensures r.Err? ==> r.error == AssertionError
    ensures r.Ok? ==> fresh(r.value) && r.value.save == save && r.value.instrument == instrument &&
                      r.value.outFileName == OutFileName(saveFileName) &&
                      !r.value.isDetected && r.value.extraInfo == map[]
  {
    var k := 0;
    while k < |save.detectors|
      invariant 0 <= k <= |save.detectors|
      invariant forall j :: 0 <= j < k ==> save.detectors[j].instrument == instrument
    {
      if save.detectors[k].instrument != instrument {
        return Err(AssertionError);
      }
      k := k + 1;
    }
    var d := new GrbDetector(saveFileName, save, instrument);
    return Ok(d);
  }
}
