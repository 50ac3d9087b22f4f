/** packages/go/examples/console/main.go: the console demo's buttons, its
    mouse handling and its keyboard commands. */
module Console {
  import opened Ints
  import opened Wrappers
  import opened GoStrings
  import opened OpenTui
  import opened Types
  import opened Buffers

  /** `min` on float32, modelled on reals. */
  function Min(a: real, b: real): (m: real)
    ensures m <= a && m <= b
    ensures m == a || m == b
  {
    if a < b then a else b
  }

  /** `ConsoleButton`. Position, size, texts and colours never change after
      creation; hover, press and the click count do. */
  class ConsoleButton {
    const ID: string
    const X: i32
    const Y: i32
    const Width: u32
    const Height: u32
    const Label: string
    const LogType: string
    const OriginalBg: RGBA
    const HoverBg: RGBA
    const PressBg: RGBA
    const BorderColor: RGBA
    var IsHovered: bool
    var IsPressed: bool
    var ClickCount: nat

    /** `NewConsoleButton`, with the hover, press and border colours given. */
    constructor (id: string, x: i32, y: i32, width: u32, height: u32, color: RGBA,
                 hoverBg: RGBA, pressBg: RGBA, borderColor: RGBA, labelText: string, logType: string)
      ensures ID == id && X == x && Y == y && Width == width && Height == height
      ensures OriginalBg == color && HoverBg == hoverBg && PressBg == pressBg && BorderColor == borderColor
      ensures Label == labelText && LogType == logType
      ensures !IsHovered && !IsPressed && ClickCount == 0
    {
      ID, X, Y, Width, Height := id, x, y, width, height;
      OriginalBg, HoverBg, PressBg, BorderColor := color, hoverBg, pressBg, borderColor;
      Label, LogType := labelText, logType;
      IsHovered, IsPressed, ClickCount := false, false, 0;
    }

    /** `Contains`, in uint32 arithmetic: `X` and `Y` are converted to uint32 and the
        far edges `uint32(X)+Width`, `uint32(Y)+Height` wrap around modulo 2^32.
        When they do not wrap, this is the half-open box test. */
    function Contains(x: u32, y: u32): (inside: bool)
      ensures ToU32(X) + Width < TWO_32 && ToU32(Y) + Height < TWO_32 ==>
                (inside <==> ToU32(X) <= x < ToU32(X) + Width && ToU32(Y) <= y < ToU32(Y) + Height)
    {
      x >= ToU32(X) && x < ToU32(ToU32(X) + Width) &&
      y >= ToU32(Y) && y < ToU32(ToU32(Y) + Height)
    }

    /** The background `Render` draws: pressed wins over hovered, hovered over neither. */
    function Background(): (bg: RGBA)
      reads this
      ensures IsPressed ==> bg == PressBg
      ensures !IsPressed && IsHovered ==> bg == HoverBg
      ensures !IsPressed && !IsHovered ==> bg == OriginalBg
    {
      if IsPressed then PressBg else if IsHovered then HoverBg else OriginalBg
    }

    /** The options `Render` draws the box with: all four sides, filled, the label
        centred as title, light box-drawing characters. */
    function BoxStyle(): (options: BoxOptions)
      ensures options.Sides == BorderSides(true, true, true, true) && options.Fill
      ensures options.Title == Label && options.TitleAlignment == AlignCenter
      ensures options.BorderChars == DefaultBoxChars
    {
      BoxOptions(BorderSides(true, true, true, true), true, Label, AlignCenter, DefaultBoxChars)
    }

    /** `Render`: draws the box in the state's background; a drawing error is
        returned wrapped. */
    method Render(buffer: Buffer) returns (err: Option<Error>)
      modifies buffer`calls
      ensures err.Some? <==> !buffer.open
      ensures err.Some? ==> err.value.Message == "failed to draw button box: " + ErrBufferClosed.Message
      ensures buffer.open ==>
                buffer.calls == old(buffer.calls) + [BufferDrawBox(X, Y, Width, Height, RunesToC(DefaultBoxChars),
                                                                   PackBorderOptions(BorderSides(true, true, true, true), true, AlignCenter as bv8),
                                                                   BorderColor, Background(), StringToC(Label))]
      ensures !buffer.open ==> buffer.calls == old(buffer.calls)
    {
      var bgColor := Background();
      var drawErr := buffer.DrawBox(X, Y, Width, Height, BoxStyle(), BorderColor, bgColor);
      if drawErr.Some? {
        return Some(Error("failed to draw button box: " + drawErr.value.Message));
      }
      return None;
    }

    /** `Click`: pressed, one more click. */
    method Click()
      modifies this`IsPressed, this`ClickCount
      ensures IsPressed && ClickCount == old(ClickCount) + 1
    {
      IsPressed := true;
      ClickCount := ClickCount + 1;
    }
  }

  /** A button whose far edge wraps past 2^32 (say a negative `X`) contains no point:
      no `x` is both at least `uint32(X)` and below the wrapped edge. */
  lemma WrappedButtonContainsNothing(b: ConsoleButton, x: u32, y: u32)
    requires ToU32(b.X) + b.Width >= TWO_32 || ToU32(b.Y) + b.Height >= TWO_32
    ensures !b.Contains(x, y)
  {
    if ToU32(b.X) + b.Width >= TWO_32 {
      assert ToU32(ToU32(b.X) + b.Width) == ToU32(b.X) + b.Width - TWO_32;
    } else {
      assert ToU32(ToU32(b.Y) + b.Height) == ToU32(b.Y) + b.Height - TWO_32;
    }
  }

  /** The index of the first button containing `(x, y)`, if any. */
  function FirstContaining(buttons: seq<ConsoleButton>, x: u32, y: u32): (r: Option<nat>)
    ensures r.Some? ==> r.value < |buttons| && buttons[r.value].Contains(x, y)
    ensures r.Some? ==> forall j :: 0 <= j < r.value ==> !buttons[j].Contains(x, y)
    ensures r.None? <==> forall j :: 0 <= j < |buttons| ==> !buttons[j].Contains(x, y)
  {
    if buttons == [] then None
    else if buttons[0].Contains(x, y) then Some(0)
    else match FirstContaining(buttons[1..], x, y)
      case None => None
      case Some(j) => Some(j + 1)
  }

  /** What a key does in `handleInput`. */
  datatype KeyCommand = Quit | PressButton(index: nat) | NoCommand

  /** `handleInput`'s switch: 'q', 'Q' and ESC quit; '1'..'5' press buttons 0..4. */
  function CommandFor(key: i32): (c: KeyCommand)
    ensures c == Quit <==> key == 'q' as i32 || key == 'Q' as i32 || key == 27
    ensures c.PressButton? <==> '1' as i32 <= key <= '5' as i32
    ensures c.PressButton? ==> c.index == key - '1' as i32 && c.index < 5
  {
    if key == 'q' as i32 || key == 'Q' as i32 || key == 27 then Quit
    else if '1' as i32 <= key <= '5' as i32 then PressButton(key - '1' as i32)
    else NoCommand
  }

  /** `DemoState`, without the renderer and its buffer. */
  class DemoState {
    const Buttons: seq<ConsoleButton>
    var StatusText: string
    var Running: bool
    var MouseX: u32
    var MouseY: u32

    /** No button appears twice, so updating one leaves the others alone. */
    ghost predicate Valid() {
      forall i, j :: 0 <= i < j < |Buttons| ==> Buttons[i] != Buttons[j]
    }

    /** The state `NewDemoState` builds around its buttons. */
    constructor (buttons: seq<ConsoleButton>)
      requires forall i, j :: 0 <= i < j < |buttons| ==> buttons[i] != buttons[j]
      ensures Valid() && Buttons == buttons
      ensures StatusText == "Click any button to start logging..." && Running
      ensures MouseX == 0 && MouseY == 0
    {
      Buttons := buttons;
      StatusText := "Click any button to start logging...";
      Running := true;
      MouseX, MouseY := 0, 0;
    }

    /** `HandleMouseMove`: records the position, sets each button's hover flag to
        whether it contains the point, and releases exactly the buttons the mouse
        has just left; click counts do not change. */
    method HandleMouseMove(x: u32, y: u32)
      requires Valid()
      modifies this`MouseX, this`MouseY, Buttons
      ensures MouseX == x && MouseY == y
      ensures forall b <- Buttons :: b.IsHovered == b.Contains(x, y)
      ensures forall b <- Buttons :: b.IsPressed == (old(b.IsPressed) && !(old(b.IsHovered) && !b.Contains(x, y)))
      ensures forall b <- Buttons :: b.ClickCount == old(b.ClickCount)
    {
      MouseX := x;
      MouseY := y;
      var i := 0;
      while i < |Buttons|
        invariant 0 <= i <= |Buttons|
        invariant MouseX == x && MouseY == y
        invariant forall k :: 0 <= k < i ==> Buttons[k].IsHovered == Buttons[k].Contains(x, y)
        invariant forall k :: 0 <= k < i ==>
                    Buttons[k].IsPressed == (old(Buttons[k].IsPressed) && !(old(Buttons[k].IsHovered) && !Buttons[k].Contains(x, y)))
        invariant forall k :: i <= k < |Buttons| ==>
                    Buttons[k].IsHovered == old(Buttons[k].IsHovered) && Buttons[k].IsPressed == old(Buttons[k].IsPressed)
        invariant forall b <- Buttons :: b.ClickCount == old(b.ClickCount)
      {
        var button := Buttons[i];
        var wasHovered := button.IsHovered;
        button.IsHovered := button.Contains(x, y);
        if wasHovered && !button.IsHovered {
          button.IsPressed := false;
        }
        i := i + 1;
      }
    }

    /** `HandleMouseClick`: clicks the first button containing the point and
        reports it in the status line (`timestamp` is the clock reading); when
        no button contains the point nothing changes. */
    method HandleMouseClick(x: u32, y: u32, timestamp: string)
      requires Valid()
      modifies this`StatusText, Buttons
      ensures forall j :: 0 <= j < |Buttons| ==>
                && Buttons[j].ClickCount == old(Buttons[j].ClickCount) + (if FirstContaining(Buttons, x, y) == Some(j) then 1 else 0)
                && Buttons[j].IsPressed == (old(Buttons[j].IsPressed) || FirstContaining(Buttons, x, y) == Some(j))
      ensures forall b <- Buttons :: b.IsHovered == old(b.IsHovered)
      ensures StatusText == match FirstContaining(Buttons, x, y)
                            case None => old(StatusText)
                            case Some(i) => ClickStatus(Buttons[i].LogType, Buttons[i].ClickCount, timestamp)
    {
      var i := 0;
      while i < |Buttons|
        invariant 0 <= i <= |Buttons|
        invariant forall k :: 0 <= k < i ==> !Buttons[k].Contains(x, y)
        invariant forall b <- Buttons :: b.ClickCount == old(b.ClickCount) && b.IsPressed == old(b.IsPressed)
        invariant forall b <- Buttons :: b.IsHovered == old(b.IsHovered)
        invariant StatusText == old(StatusText)
      {
        var button := Buttons[i];
        if button.Contains(x, y) {
          assert FirstContaining(Buttons, x, y) == Some(i);
          assert forall j :: 0 <= j < |Buttons| && j != i ==> Buttons[j] != button;
          button.Click();
          StatusText := ClickStatus(button.LogType, button.ClickCount, timestamp);
          return;
        }
        i := i + 1;
      }
      assert FirstContaining(Buttons, x, y) == None;
    }

    /** Clicks button `i` from the keyboard and reports it in the status line. */
    method TriggerButton(i: nat)
      requires Valid() && i < |Buttons|
      modifies this`StatusText, Buttons[i]
      ensures Buttons[i].IsPressed && Buttons[i].ClickCount == old(Buttons[i].ClickCount) + 1
      ensures Buttons[i].IsHovered == old(Buttons[i].IsHovered)
      ensures StatusText == KeyStatus(Buttons[i].LogType, Buttons[i].ClickCount)
    {
      Buttons[i].Click();
      StatusText := KeyStatus(Buttons[i].LogType, Buttons[i].ClickCount);
    }
  }

  /** `"Last triggered: %s #%d at %s"`. */
  function ClickStatus(logType: string, count: nat, timestamp: string): (s: string)
    ensures |s| > |"Last triggered: "| && s[..|"Last triggered: "|] == "Last triggered: "
  {
    "Last triggered: " + logType + " #" + Itoa(count) + " at " + timestamp
  }

  /** `"Triggered: %s #%d"`. */
  function KeyStatus(logType: string, count: nat): (s: string)
    ensures |s| > |"Triggered: "| && s[..|"Triggered: "|] == "Triggered: "
  {
    "Triggered: " + logType + " #" + Itoa(count)
  }

  /** `handleInput`: false exactly for a quit key; '1'..'5' click the matching
      button when there is one; every other key changes nothing. */
  method HandleInput(demo: DemoState, key: i32) returns (keepRunning: bool)
    requires demo.Valid()
    modifies demo`StatusText, demo.Buttons
    ensures keepRunning <==> CommandFor(key) != Quit
    ensures var c := CommandFor(key);
            if c.PressButton? && c.index < |demo.Buttons| then
              && demo.Buttons[c.index].IsPressed
              && demo.Buttons[c.index].ClickCount == old(demo.Buttons[c.index].ClickCount) + 1
              && demo.StatusText == KeyStatus(demo.Buttons[c.index].LogType, demo.Buttons[c.index].ClickCount)
              && forall j :: 0 <= j < |demo.Buttons| && j != c.index ==>
                   demo.Buttons[j].IsPressed == old(demo.Buttons[j].IsPressed)
                   && demo.Buttons[j].ClickCount == old(demo.Buttons[j].ClickCount)
            else
              && demo.StatusText == old(demo.StatusText)
              && forall b <- demo.Buttons :: b.IsPressed == old(b.IsPressed) && b.ClickCount == old(b.ClickCount)
    ensures forall b <- demo.Buttons :: b.IsHovered == old(b.IsHovered)
  {
    if key == 'q' as i32 || key == 'Q' as i32 || key == 27 {
      return false;
    }
    if '1' as i32 <= key <= '5' as i32 {
      var i := key - '1' as i32;
      if i < |demo.Buttons| {
        demo.TriggerButton(i);
      }
    }
    return true;
  }
}
