/**
 * A clickable menu box with a text label (src/MenuItem.cpp,
 * include/MenuItem.h): an inclusive rectangle hit-test drives the selected
 * and entered flags, and the label is centred once, on the first update.
 */
module MenuItems {
  import opened TextRenderer

  /** The point (px, py) lies in the closed rectangle [x, x+w] x [y, y+h]. */
  predicate InRect(x: real, y: real, w: real, h: real, px: real, py: real)
  {
    px >= x && px <= x + w && py >= y && py <= y + h
  }

  /** The rectangle is closed: all four corners are hits. */
  lemma RectCornersInside(x: real, y: real, w: real, h: real)
    requires w >= 0.0 && h >= 0.0
    ensures InRect(x, y, w, h, x, y) && InRect(x, y, w, h, x + w, y)
    ensures InRect(x, y, w, h, x, y + h) && InRect(x, y, w, h, x + w, y + h)
  {
  }

  /** Where a label of length `size` starts when centred in [pos, pos + extent]. */
  function CenteredStart(pos: real, extent: real, size: real): real
  {
    pos + (extent - size) / 2.0
  }

  /** A centred label leaves equal margins on both sides and stays inside when it fits. */
  lemma CenteredMargins(pos: real, extent: real, size: real)
    requires 0.0 <= size <= extent
    ensures CenteredStart(pos, extent, size) - pos == (pos + extent) - (CenteredStart(pos, extent, size) + size)
    ensures pos <= CenteredStart(pos, extent, size) && CenteredStart(pos, extent, size) + size <= pos + extent
  {
  }

  class MenuItem {
    const font: FontData
    var selected: bool
    var entered: bool
    var text: string
    var x: real
    var y: real
    var width: real
    var height: real
    var textX: real
    var textY: real
    var textScale: real
    var centerText: bool
    var textNeedsCentering: bool
    var textWidth: real
    var textHeight: real
    var selectable: bool

    constructor (font: FontData, txt: string, x: real, y: real, width: real, height: real,
                 textScale: real, textX: real, textY: real)
      requires ValidFont(font)
      ensures this.font == font && text == txt
      ensures this.x == x && this.y == y && this.width == width && this.height == height
      ensures this.textScale == textScale && this.textX == textX && this.textY == textY
      ensures !selected && !entered && selectable
      ensures centerText && textNeedsCentering
      ensures textWidth == 0.0 && textHeight == 0.0
    {
      this.font := font;
      text := txt;
      this.x, this.y, this.width, this.height := x, y, width, height;
      this.textScale, this.textX, this.textY := textScale, textX, textY;
      selected, entered, selectable := false, false, true;
      centerText, textNeedsCentering := true, true;
      textWidth, textHeight := 0.0, 0.0;
    }

    predicate Hit(px: real, py: real)
      reads this
    {
      InRect(x, y, width, height, px, py)
    }

    /** Entered is only ever set together with selected. */
    predicate EnteredImpliesSelected()
      reads this
    {
      entered ==> selected
    }

    /**
     * The hit-test: outside the box both flags clear; inside a selectable
     * box the item is selected and entered follows the argument; inside a
     * non-selectable box both flags clear.
     */
    method Select(mouseX: real, mouseY: real, enteredNow: bool)
      modifies this`selected, this`entered
      ensures !Hit(mouseX, mouseY) ==> !selected && !entered
      ensures Hit(mouseX, mouseY) && selectable ==> selected && entered == enteredNow
      ensures Hit(mouseX, mouseY) && !selectable ==> !selected && !entered
      ensures EnteredImpliesSelected()
    {
      var intersects := mouseX >= x && mouseX <= x + width && mouseY >= y && mouseY <= y + height;
      if !intersects {
        selected := false;
        entered := false;
        return;
      }
      if selectable {
        selected := true;
        entered := enteredNow;
        return;
      }
      selected := false;
      entered := false;
    }

    /**
     * Measures the label at its scale; when centring is on and the label
     * fits the box, places it with equal margins on both sides.
     */
    method CalculateCenteredTextDimensions()
      requires ValidFont(font)
      modifies this`textWidth, this`textHeight, this`textX, this`textY
      ensures textWidth == MeasuredWidth(font, text, textScale)
      ensures textHeight == MeasuredHeight(font, text, textScale)
      ensures centerText && textWidth <= width && textHeight <= height ==>
        textX == CenteredStart(x, width, textWidth) && textY == CenteredStart(y, height, textHeight)
      ensures !(centerText && textWidth <= width && textHeight <= height) ==>
        textX == old(textX) && textY == old(textY)
    {
      var textW, textH := MeasureText(font, text, textScale);
      textWidth := textW;
      textHeight := textH;
      // Centring is off, or the label does not fit the box: keep the position.
      if centerText && !(width < textWidth) && !(height < textHeight) {
        textX := CenteredStart(x, width, textWidth);
        textY := CenteredStart(y, height, textHeight);
      }
    }

    /** Centres the label on the first call only, then runs the hit-test. */
    method Update(mouseX: int, mouseY: int, enteredNow: bool)
      requires ValidFont(font)
      modifies this`textWidth, this`textHeight, this`textX, this`textY, this`textNeedsCentering,
        this`selected, this`entered
      ensures !textNeedsCentering
      ensures old(textNeedsCentering) ==>
        textWidth == MeasuredWidth(font, text, textScale) &&
        textHeight == MeasuredHeight(font, text, textScale)
      ensures old(textNeedsCentering) && centerText && textWidth <= width && textHeight <= height ==>
        textX == CenteredStart(x, width, textWidth) && textY == CenteredStart(y, height, textHeight)
      ensures old(textNeedsCentering) && !(centerText && textWidth <= width && textHeight <= height) ==>
        textX == old(textX) && textY == old(textY)
      ensures !old(textNeedsCentering) ==>
        textWidth == old(textWidth) && textHeight == old(textHeight) &&
        textX == old(textX) && textY == old(textY)
      ensures !Hit(mouseX as real, mouseY as real) ==> !selected && !entered
      ensures Hit(mouseX as real, mouseY as real) && selectable ==> selected && entered == enteredNow
      ensures Hit(mouseX as real, mouseY as real) && !selectable ==> !selected && !entered
      ensures EnteredImpliesSelected()
    {
      if textNeedsCentering {
        CalculateCenteredTextDimensions();
        textNeedsCentering := false;
      }
      Select(mouseX as real, mouseY as real, enteredNow);
    }

    /** Switching selectability clears both flags. */
    method SetSelectable(value: bool)
      modifies this`selected, this`entered, this`selectable
      ensures selectable == value && !selected && !entered
    {
      selected := false;
      entered := false;
      selectable := value;
    }
  }
}
