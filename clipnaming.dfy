/**
 * The generator and the player agree on file names: the file the generator requests for a
 * slide is the file narration plays for it.
 */
module ClipNaming {
  import opened Wrappers
  import AudioGen
  import Narration
  import JsText

  /**
   * Every slide that has a script is generated by a full run, under the name narration
   * plays for that slide.
   */
  lemma GeneratedClipIsRequested(keys: seq<int>, s: int)
    requires s in keys
    ensures s in AudioGen.Selected(AudioGen.SortAscending(keys), None)
    ensures "audio/" + AudioGen.OutputName(s) == Narration.ClipFile(s)
  {
    var sorted := AudioGen.SortAscending(keys);
    assert s in sorted by {
      assert s in multiset(keys);
      assert s in multiset(sorted);
    }
    assert AudioGen.Selected(sorted, None) == sorted;
    assert "audio/" + AudioGen.OutputName(s) == Narration.ClipFile(s) by {
      var d := JsText.IntToString(s);
      assert AudioGen.OutputName(s) == "slide-" + d + ".mp3";
      assert Narration.ClipFile(s) == "audio/slide-" + d + ".mp3";
      assert "audio/" + ("slide-" + d + ".mp3") == "audio/slide-" + d + ".mp3";
    }
  }
}
