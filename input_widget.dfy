/**
 * The scalar editors that can be bound to an unconnected input socket: their
 * state objects, the integer field's edit rule and the dropdown's selection.
 */
module InputWidget {
  import opened Wrappers
  import opened IntText

  /** State of a free-text editor. */
  class TextWidgetState {
    var text: string

    constructor ()
      ensures text == ""
    {
      text := "";
    }

    /** The text field reports new text; the state takes it as it is. */
    method OnValueChange(newText: string)
      modifies this
      ensures text == newText
    {
      text := newText;
    }
  }

  /** State of an integer editor. */
  class IntWidgetState {
    var value: Int32

    constructor ()
      ensures value == 0
    {
      value := 0;
    }
  }

  /** State of a floating-point editor; its edit rule works on floats and is not modelled. */
  class FloatWidgetState {
    var value: real

    constructor ()
      ensures value == 0.0
    {
      value := 0.0;
    }
  }

  /** State of a dropdown over a fixed list of options. */
  class DropdownWidgetState {
    const options: seq<string>
    var selectedIndex: Int32

    constructor (options: seq<string>)
      ensures this.options == options && selectedIndex == 0
    {
      this.options := options;
      selectedIndex := 0;
    }

    /** `options[selectedIndex]`; an index outside the list throws, which is `None` here. */
    function Selected(): (r: Option<string>)
      reads this
      ensures r.Some? <==> 0 <= selectedIndex < |options|
      ensures r.Some? ==> r.value == options[selectedIndex]
    {
      if 0 <= selectedIndex < |options| then Some(options[selectedIndex]) else None
    }
  }

  /** The four kinds of editor state an input can carry. */
  datatype InputWidget =
    | TextWidget(text: TextWidgetState)
    | IntWidget(integer: IntWidgetState)
    | FloatWidget(float: FloatWidgetState)
    | DropdownWidget(dropdown: DropdownWidgetState)

  /**
   * The integer editor: the text it shows, remembered beside the state it
   * edits. It starts as the state's value rendered as text.
   */
  class IntField {
    const state: IntWidgetState
    var text: string

    /** The shown text and the state's value agree: blank text stands for 0, other text parses to the value. */
    ghost predicate InSync()
      reads this, state
    {
      if IsBlank(text) then state.value == 0 else ParseInt(text) == Some(state.value)
    }

    constructor (state: IntWidgetState)
      ensures this.state == state && text == IntToString(state.value)
      ensures InSync()
    {
      this.state := state;
      text := IntToString(state.value);
      IntToStringNotBlank(state.value);
      ParseIntToString(state.value);
    }

    /**
     * The edit rule: blank text resets the value to 0 and clears the text;
     * text that parses as an `Int` becomes the value and the shown text;
     * any other text is rejected and nothing changes.
     */
    method OnValueChange(newText: string)
      modifies this`text, state`value
      ensures IsBlank(newText) ==> state.value == 0 && text == ""
      ensures !IsBlank(newText) && ParseInt(newText).Some? ==>
                state.value == ParseInt(newText).value && text == newText
      ensures !IsBlank(newText) && ParseInt(newText).None? ==>
                state.value == old(state.value) && text == old(text)
      ensures old(InSync()) ==> InSync()
    {
      if IsBlank(newText) {
        state.value := 0;
        text := "";
      } else {
        var parsed := ParseInt(newText);
        if parsed.Some? {
          state.value := parsed.value;
          text := newText;
        }
      }
    }
  }

  /**
   * The dropdown editor: whether its option popup is open, beside the state
   * whose selection it edits. When the editor is disabled it installs no
   * click or focus handlers.
   */
  class DropdownField {
    const state: DropdownWidgetState
    var focused: bool

    constructor (state: DropdownWidgetState)
      ensures this.state == state && !focused
    {
      this.state := state;
      focused := false;
    }

    /** A click on the editor opens the popup, if the editor is enabled. */
    method Click(enabled: bool)
      modifies this`focused
      ensures enabled ==> focused
      ensures !enabled ==> focused == old(focused)
    {
      if enabled {
        focused := true;
      }
    }

    /** A focus change opens or closes the popup, if the editor is enabled. */
    method FocusChanged(enabled: bool, hasFocus: bool)
      modifies this`focused
      ensures enabled ==> focused == hasFocus
      ensures !enabled ==> focused == old(focused)
    {
      if enabled {
        focused := hasFocus;
      }
    }

    /** A click on option `idx` of the open popup selects it and closes the popup. */
    method ChooseOption(idx: Int32)
      requires focused
      requires 0 <= idx < |state.options|
      modifies this`focused, state`selectedIndex
      ensures state.selectedIndex == idx && !focused
      ensures state.Selected() == Some(state.options[idx])
    {
      state.selectedIndex := idx;
      focused := false;
    }
  }
}
