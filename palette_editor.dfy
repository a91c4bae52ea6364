/**
 * The state of components/color-palette-editor.tsx: a palette name being
 * typed and five colours, saved together through the `onSave` callback.
 */
module PaletteEditor {
  import JsString

  /** The colours the editor starts with. */
  const InitialColors: seq<string> := ["#ffffff", "#000000", "#ff0000", "#00ff00", "#0000ff"]

  /** One call of `onSave(name, colors)`. */
  datatype SavedPalette = SavedPalette(name: string, colors: seq<string>)

  class Editor {
    /** The name typed so far. */
    var name: string
    var colors: seq<string>
    /** The calls made to `onSave`, in order. */
    var saved: seq<SavedPalette>

    constructor ()
      ensures name == "" && colors == InitialColors && |colors| == 5 && saved == []
    {
      name := "";
      colors := InitialColors;
      saved := [];
    }

    /** The name input's `onChange`. */
    method SetName(v: string)
      modifies this`name
      ensures name == v
    {
      name := v;
    }

    /**
     * handleColorChange: a copy of the colours with entry `index` replaced;
     * the length and every other entry stay as they were.
     */
    method HandleColorChange(index: nat, value: string)
      requires index < |colors|
      modifies this`colors
      ensures |colors| == |old(colors)| && colors[index] == value
      ensures forall j :: 0 <= j < |colors| && j != index ==> colors[j] == old(colors)[j]
    {
      var next := colors;
      next := next[index := value];
      colors := next;
    }

    /**
     * handleSave: a name that trims to nothing saves nothing; otherwise the
     * trimmed name and the colours are passed on once, the name is cleared
     * and the colours are kept.
     */
    method HandleSave()
      modifies this`name, this`saved
      ensures JsString.Trim(old(name)) == [] ==> name == old(name) && saved == old(saved)
      ensures JsString.Trim(old(name)) != [] ==>
        saved == old(saved) + [SavedPalette(JsString.Trim(old(name)), colors)] && name == ""
    {
      if JsString.Trim(name) == [] {
        return;
      }
      saved := saved + [SavedPalette(JsString.Trim(name), colors)];
      name := "";
    }

    /** Saving twice in a row passes the palette on once: the second save sees an empty name. */
    method SaveTwice()
      requires JsString.Trim(name) != []
      modifies this`name, this`saved
      ensures saved == old(saved) + [SavedPalette(JsString.Trim(old(name)), colors)] && name == ""
    {
      HandleSave();
      assert JsString.Trim(name) == [];
      HandleSave();
    }
  }
}
