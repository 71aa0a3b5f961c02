/**
 * The menu scene: two colour pickers driven by the keyboard, one frame at a
 * time, and the hand-over of the chosen colours to the game scene.
 */
module MenuScene {
  import opened Palette
  import opened Layout
  import opened Picker

  datatype Option<T> = None | Some(value: T)

  /** The parameters the game scene is started with. */
  datatype GameParams = GameParams(color1: string, color2: string)

  /** The name of the scene started on confirm. */
  const GameScene: string := "game"

  /** A request to the engine to start scene `scene` with `params`. */
  datatype SceneStart = SceneStart(scene: string, params: GameParams)

  /**
   * The keys freshly pressed in one frame (a key-down edge, not a held key):
   * Enter, player 1's D and A, player 2's right and left arrows.
   */
  datatype Keys = Keys(enter: bool, keyD: bool, keyA: bool, right: bool, left: bool)

  /** Side of the triangular cursor. */
  const CursorSize: real := 15.0
  /** Fill of a text that no style has coloured yet (the engine's default). */
  const DefaultTextFill: string := "#fff"

  /** An equilateral triangle pointing up at a swatch; only its horizontal placement is kept. */
  class Cursor {
    /** Left-most x-coordinate of the triangle. */
    var left: real

    /** Builds the triangle with its apex at `x`; its base spans `x - CursorSize/2 .. x + CursorSize/2`. */
    constructor BuildEquilateral(x: real)
      ensures CentreX() == x
    {
      left := x - CursorSize / 2.0;
    }

    /** The vertical line through the apex, about which the triangle is symmetric. */
    function CentreX(): real
      reads this
    {
      left + CursorSize / 2.0
    }
  }

  /** Where a cursor's `left` is when the first colour of a panel is selected. */
  function CursorHome(containerX: real, labelWidth: real): real {
    containerX + SwatchCentre(0, labelWidth) - CursorSize / 2.0
  }

  /**
   * A cursor whose offset from its home matches its index sits centred under
   * the selected swatch of the row that follows the label.
   */
  lemma CursorCentredUnderSwatch(s: Selection, containerX: real, labelWidth: real, boxes: seq<Rect>)
    requires Consistent(s, CursorHome(containerX, labelWidth))
    requires SwatchRow(boxes, labelWidth)
    ensures 0 <= s.index < |boxes|
    ensures s.left + CursorSize / 2.0 == containerX + boxes[s.index].x + boxes[s.index].width / 2.0
  {
  }

  /**
   * Handles a fresh "right" press for a player whose index is `index` and whose
   * cursor is `cursor`: returns the new index and shifts the cursor with it.
   */
  method MoveRight(index: int, cursor: Cursor) returns (next: int)
    modifies cursor
    ensures Selection(next, cursor.left) == PressRight(Selection(index, old(cursor.left)))
  {
    if index == |Colors| - 1 {
      next := 0;
      cursor.left := cursor.left - (CursorStep * (|Colors| - 1)) as real;
    } else {
      next := index + 1;
      cursor.left := cursor.left + CursorStep as real;
    }
  }

  /**
   * Handles a fresh "left" press for a player whose index is `index` and whose
   * cursor is `cursor`: returns the new index and shifts the cursor with it.
   */
  method MoveLeft(index: int, cursor: Cursor) returns (next: int)
    modifies cursor
    ensures Selection(next, cursor.left) == PressLeft(Selection(index, old(cursor.left)))
  {
    if index == 0 {
      next := |Colors| - 1;
      cursor.left := cursor.left + (CursorStep * (|Colors| - 1)) as real;
    } else {
      next := index - 1;
      cursor.left := cursor.left - CursorStep as real;
    }
  }

  class Menu {
    var player1ColorIndex: int
    var player2ColorIndex: int
    const cursor1: Cursor
    const cursor2: Cursor
    /** Fills of the "Player 1" and "Player 2" headers. */
    var header1Fill: string
    var header2Fill: string
    /** Horizontal origins of the two panels' containers. */
    const container1X: real
    const container2X: real
    /** Widths of the two "Choose Colour:" labels, which the swatch rows follow. */
    const chooseColor1Width: real
    const chooseColor2Width: real
    /** The two swatch rows, in their containers' coordinates. */
    const swatches1: seq<Rect>
    const swatches2: seq<Rect>

    function Player1(): Selection
      reads this, cursor1
    {
      Selection(player1ColorIndex, cursor1.left)
    }

    function Player2(): Selection
      reads this, cursor2
    {
      Selection(player2ColorIndex, cursor2.left)
    }

    /**
     * Scene invariant: the cursors are two objects, the swatch rows are laid out
     * after their labels, and each cursor is `CursorStep * index` from its home.
     */
    ghost predicate Valid()
      reads this, cursor1, cursor2
    {
      cursor1 != cursor2 &&
      SwatchRow(swatches1, chooseColor1Width) &&
      SwatchRow(swatches2, chooseColor2Width) &&
      Consistent(Player1(), CursorHome(container1X, chooseColor1Width)) &&
      Consistent(Player2(), CursorHome(container2X, chooseColor2Width))
    }

    /** Each cursor's apex is on the centre line of its player's selected swatch. */
    ghost predicate CursorsCentred()
      reads this, cursor1, cursor2
    {
      0 <= player1ColorIndex < |swatches1| &&
      cursor1.CentreX() == container1X + swatches1[player1ColorIndex].x + swatches1[player1ColorIndex].width / 2.0 &&
      0 <= player2ColorIndex < |swatches2| &&
      cursor2.CentreX() == container2X + swatches2[player2ColorIndex].x + swatches2[player2ColorIndex].width / 2.0
    }

    /**
     * Scene start: lays out both swatch rows, builds the cursors under the first
     * colour for player 1 and the second colour for player 2, and selects those.
     */
    constructor Create(container1X: real, chooseColor1Width: real, container2X: real, chooseColor2Width: real)
      ensures Valid() && CursorsCentred()
      ensures fresh(cursor1) && fresh(cursor2)
      ensures player1ColorIndex == 0 && player2ColorIndex == 1
      ensures cursor2.left - CursorHome(container2X, chooseColor2Width)
           == cursor1.left - CursorHome(container1X, chooseColor1Width) + CursorStep as real
      ensures header1Fill == DefaultTextFill && header2Fill == DefaultTextFill
      ensures this.container1X == container1X && this.chooseColor1Width == chooseColor1Width
      ensures this.container2X == container2X && this.chooseColor2Width == chooseColor2Width
    {
      var boxes1 := CreateColorBoxes(chooseColor1Width);
      var boxes2 := CreateColorBoxes(chooseColor2Width);
      this.swatches1 := boxes1;
      this.swatches2 := boxes2;
      this.container1X := container1X;
      this.container2X := container2X;
      this.chooseColor1Width := chooseColor1Width;
      this.chooseColor2Width := chooseColor2Width;
      header1Fill := DefaultTextFill;
      header2Fill := DefaultTextFill;
      cursor1 := new Cursor.BuildEquilateral(
        container1X + chooseColor1Width + ColorBoxSpacing as real + ColorBoxSize as real / 2.0);
      // `+ 30` puts player 2's cursor under the second colour
      cursor2 := new Cursor.BuildEquilateral(
        container2X + chooseColor2Width + ColorBoxSpacing as real + ColorBoxSize as real / 2.0 + 30.0);
      player1ColorIndex := 0;
      player2ColorIndex := 1;
      new;
      CursorCentredUnderSwatch(Player1(), container1X, chooseColor1Width, swatches1);
      CursorCentredUnderSwatch(Player2(), container2X, chooseColor2Width, swatches2);
    }

    /**
     * One frame of input handling. Confirm is read first, so the game scene gets
     * the colours selected before this frame's direction keys. Then D and A move
     * player 1's selection, the arrows move player 2's, and both headers take
     * their player's colour.
     */
    method HandleKeyPress(keys: Keys) returns (startGame: Option<SceneStart>)
      requires Valid()
      modifies this, cursor1, cursor2
      ensures Valid() && CursorsCentred()
      ensures startGame == if keys.enter
        then Some(SceneStart(GameScene, GameParams(Colors[old(player1ColorIndex)], Colors[old(player2ColorIndex)])))
        else None
      ensures Player1() == Handle(old(Player1()), keys.keyD, keys.keyA)
      ensures Player2() == Handle(old(Player2()), keys.right, keys.left)
      ensures header1Fill == Colors[player1ColorIndex] && header2Fill == Colors[player2ColorIndex]
    {
      startGame := None;
      if keys.enter {
        startGame := Some(SceneStart(GameScene, GameParams(Colors[player1ColorIndex], Colors[player2ColorIndex])));
      }

      if keys.keyD {
        player1ColorIndex := MoveRight(player1ColorIndex, cursor1);
      }
      if keys.keyA {
        player1ColorIndex := MoveLeft(player1ColorIndex, cursor1);
      }
      if keys.right {
        player2ColorIndex := MoveRight(player2ColorIndex, cursor2);
      }
      if keys.left {
        player2ColorIndex := MoveLeft(player2ColorIndex, cursor2);
      }

      header1Fill := Colors[player1ColorIndex];
      header2Fill := Colors[player2ColorIndex];

      CursorCentredUnderSwatch(Player1(), container1X, chooseColor1Width, swatches1);
      CursorCentredUnderSwatch(Player2(), container2X, chooseColor2Width, swatches2);
    }
  }
}
