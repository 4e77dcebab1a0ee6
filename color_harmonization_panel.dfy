/** The local logic of the colour-harmonisation panel
    (ColorHarmonizationPanel.tsx): toggling a palette colour in the selection
    by its hex value, the extraction guard, and the busy/disabled predicates. */
module ColorHarmonizationPanel {
  import opened Wrappers
  import opened Types

  /** The colour-count slider: 8 at first, between 4 and 16. */
  const DefaultColorCount := 8
  const MinColorCount := 4
  const MaxColorCount := 16

  predicate IsExtracting(loadingAction: Option<string>)
  {
    loadingAction == Some("extract")
  }

  predicate IsApplying(loadingAction: Option<string>)
  {
    loadingAction == Some("apply")
  }

  /** The panel is busy while it extracts or applies. */
  predicate IsBusy(loadingAction: Option<string>)
  {
    IsExtracting(loadingAction) || IsApplying(loadingAction)
  }

  /** The apply button is disabled while busy or with nothing selected. */
  predicate ApplyDisabled(loadingAction: Option<string>, selectedColors: seq<ExtractedColor>)
  {
    IsBusy(loadingAction) || |selectedColors| == 0
  }

  /** The extract button and the slider are disabled without a reference file or while busy. */
  predicate ExtractDisabled(referenceFile: Option<ImageFile>, loadingAction: Option<string>)
  {
    referenceFile.None? || IsBusy(loadingAction)
  }

  /** What the panel's predicates say, written out. */
  lemma BusyAndDisabled(loadingAction: Option<string>, selectedColors: seq<ExtractedColor>)
    ensures IsBusy(loadingAction) <==> loadingAction in {Some("extract"), Some("apply")}
    ensures ApplyDisabled(loadingAction, selectedColors) <==>
              loadingAction in {Some("extract"), Some("apply")} || selectedColors == []
    ensures forall f: Option<ImageFile> :: ExtractDisabled(f, loadingAction) <==>
              f.None? || loadingAction in {Some("extract"), Some("apply")}
  {
  }

  /** handleExtractClick: extraction is requested, with the current count,
      only when a reference file has been chosen. */
  function HandleExtractClick(referenceFile: Option<ImageFile>, colorCount: int): (request: Option<(ImageFile, int)>)
    requires MinColorCount <= colorCount <= MaxColorCount  // the slider's range
    ensures request.Some? ==> MinColorCount <= request.value.1 <= MaxColorCount
    ensures request.Some? <==> referenceFile.Some?
    ensures request.Some? ==> request.value.0 == referenceFile.value && request.value.1 == colorCount
  {
    if referenceFile.Some? then Some((referenceFile.value, colorCount)) else None
  }

  /** Some selected colour has this hex (`selectedColors.some(c => c.hex === hex)`). */
  predicate HasHex(s: seq<ExtractedColor>, hex: string)
  {
    exists i :: 0 <= i < |s| && s[i].hex == hex
  }

  /** `s.filter(c => c.hex !== hex)` */
  function RemoveHex(s: seq<ExtractedColor>, hex: string): (r: seq<ExtractedColor>)
    ensures forall c :: c in r <==> c in s && c.hex != hex
    ensures |r| <= |s|
    ensures !HasHex(r, hex)
  {
    if s == [] then []
    else if s[0].hex == hex then RemoveHex(s[1..], hex)
    else [s[0]] + RemoveHex(s[1..], hex)
  }

  /** Filtering distributes over concatenation: the kept entries keep their
      relative order. */
  lemma {:induction false} RemoveHexAppend(s: seq<ExtractedColor>, t: seq<ExtractedColor>, hex: string)
    ensures RemoveHex(s + t, hex) == RemoveHex(s, hex) + RemoveHex(t, hex)
  {
    if s == [] {
      assert s + t == t;
    } else {
      assert (s + t)[0] == s[0];
      assert (s + t)[1..] == s[1..] + t;
      RemoveHexAppend(s[1..], t, hex);
    }
  }

  /** Filtering out a hex that is absent changes nothing. */
  lemma {:induction false} RemoveAbsentHex(s: seq<ExtractedColor>, hex: string)
    requires !HasHex(s, hex)
    ensures RemoveHex(s, hex) == s
  {
    if s != [] {
      assert !HasHex(s[1..], hex) by {
        forall i | 0 <= i < |s[1..]| ensures s[1..][i].hex != hex {
          assert s[1..][i] == s[i + 1];
        }
      }
      RemoveAbsentHex(s[1..], hex);
      assert s == [s[0]] + s[1..];
    }
  }

  /** handleColorToggle: a selected hex is removed (every entry with it);
      an unselected colour is appended at the end. */
  function HandleColorToggle(selectedColors: seq<ExtractedColor>, color: ExtractedColor): (r: seq<ExtractedColor>)
    ensures HasHex(selectedColors, color.hex) ==>
              !HasHex(r, color.hex) && r == RemoveHex(selectedColors, color.hex)
    ensures !HasHex(selectedColors, color.hex) ==> r == selectedColors + [color]
    ensures HasHex(r, color.hex) <==> !HasHex(selectedColors, color.hex)
  {
    if HasHex(selectedColors, color.hex) then RemoveHex(selectedColors, color.hex)
    else
      var r := selectedColors + [color];
      assert r[|selectedColors|] == color;
      r
  }

  /** Entries with a different hex are neither added, removed nor reordered. */
  lemma ToggleKeepsOthers(selectedColors: seq<ExtractedColor>, color: ExtractedColor)
    ensures RemoveHex(HandleColorToggle(selectedColors, color), color.hex) ==
            RemoveHex(selectedColors, color.hex)
    ensures forall c: ExtractedColor :: c.hex != color.hex ==>
              (c in HandleColorToggle(selectedColors, color) <==> c in selectedColors)
  {
    if !HasHex(selectedColors, color.hex) {
      RemoveHexAppend(selectedColors, [color], color.hex);
      assert RemoveHex([color], color.hex) == [];
    } else {
      RemoveAbsentHex(RemoveHex(selectedColors, color.hex), color.hex);
    }
  }

  /** Toggling an unselected colour twice restores the selection exactly. */
  lemma ToggleTwiceRestores(selectedColors: seq<ExtractedColor>, color: ExtractedColor)
    requires !HasHex(selectedColors, color.hex)
    ensures HandleColorToggle(HandleColorToggle(selectedColors, color), color) == selectedColors
  {
    RemoveHexAppend(selectedColors, [color], color.hex);
    RemoveAbsentHex(selectedColors, color.hex);
    assert RemoveHex([color], color.hex) == [];
  }

  /** Toggling a selected colour twice does not restore the selection: every
      entry with its hex is dropped, then the colour itself is appended. */
  lemma ToggleTwiceSelected(selectedColors: seq<ExtractedColor>, color: ExtractedColor)
    requires HasHex(selectedColors, color.hex)
    ensures HandleColorToggle(HandleColorToggle(selectedColors, color), color) ==
            RemoveHex(selectedColors, color.hex) + [color]
  {
  }

  /** The slider starts inside its range. */
  lemma DefaultColorCountInRange()
    ensures MinColorCount <= DefaultColorCount <= MaxColorCount
  {
  }

  /** No two selected entries share a hex. */
  predicate HexesDistinct(s: seq<ExtractedColor>)
  {
    forall i, j :: 0 <= i < j < |s| ==> s[i].hex != s[j].hex
  }

  lemma {:induction false} RemoveHexKeepsDistinct(s: seq<ExtractedColor>, hex: string)
    requires HexesDistinct(s)
    ensures HexesDistinct(RemoveHex(s, hex))
  {
    if s != [] {
      assert HexesDistinct(s[1..]) by {
        forall i, j | 0 <= i < j < |s[1..]| ensures s[1..][i].hex != s[1..][j].hex {
          assert s[1..][i] == s[i + 1] && s[1..][j] == s[j + 1];
        }
      }
      RemoveHexKeepsDistinct(s[1..], hex);
      var rest := RemoveHex(s[1..], hex);
      if s[0].hex != hex {
        assert !HasHex(rest, s[0].hex) by {
          forall c | c in rest ensures c.hex != s[0].hex {
            assert c in s[1..];
            var k :| 0 <= k < |s[1..]| && s[1..][k] == c;
            assert s[k + 1] == c;
          }
        }
        var r := [s[0]] + rest;
        forall i, j | 0 <= i < j < |r| ensures r[i].hex != r[j].hex {
          if i == 0 {
            assert r[j] == rest[j - 1];
          } else {
            assert r[i] == rest[i - 1] && r[j] == rest[j - 1];
          }
        }
      }
    }
  }

  /** Toggling keeps the selection's hexes pairwise distinct. */
  lemma ToggleKeepsDistinct(selectedColors: seq<ExtractedColor>, color: ExtractedColor)
    requires HexesDistinct(selectedColors)
    ensures HexesDistinct(HandleColorToggle(selectedColors, color))
  {
    if HasHex(selectedColors, color.hex) {
      RemoveHexKeepsDistinct(selectedColors, color.hex);
    } else {
      var r := selectedColors + [color];
      forall i, j | 0 <= i < j < |r| ensures r[i].hex != r[j].hex {
        if j == |selectedColors| {
          assert r[i] == selectedColors[i];
        } else {
          assert r[i] == selectedColors[i] && r[j] == selectedColors[j];
        }
      }
    }
  }
}
