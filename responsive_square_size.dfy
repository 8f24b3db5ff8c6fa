/** The square size of the board as a function of the window's inner width and height. */
module ResponsiveSquareSize {
  import opened Constants

  datatype SizeInfo = SizeInfo(squareSize: int, isMobile: bool)

  /** Math.min on integers. */
  function Min(a: int, b: int): (m: int)
    ensures m <= a && m <= b && (m == a || m == b)
  {
    if a <= b then a else b
  }

  /** Below 1024 pixels the single-column layout fits eight squares into the smaller of the
      remaining width and height; otherwise the side-by-side layout does the same, capped at the
      largest square size. Dafny's division by 8 rounds down like Math.floor, negative sizes included. */
  function CalculateSquareSize(windowWidth: int, windowHeight: int): (r: SizeInfo)
    ensures r.isMobile <==> windowWidth < 1024
    ensures r.isMobile ==>
      var avail := Min(windowWidth - MOBILE_HORIZONTAL_PADDING, windowHeight - MOBILE_VERTICAL_SPACE);
      8 * r.squareSize <= avail < 8 * (r.squareSize + 1)
    ensures !r.isMobile ==>
      var avail := Min(windowWidth - DESKTOP_SIDE_PANEL_WIDTH, windowHeight - DESKTOP_VERTICAL_MARGIN);
      && r.squareSize <= MAX_SQUARE_SIZE
      && 8 * r.squareSize <= avail
      && (r.squareSize == MAX_SQUARE_SIZE || avail < 8 * (r.squareSize + 1))
  {
    if windowWidth < 1024 then
      var availableWidth := windowWidth - MOBILE_HORIZONTAL_PADDING;
      var availableHeight := windowHeight - MOBILE_VERTICAL_SPACE;
      SizeInfo(Min(availableWidth, availableHeight) / 8, true)
    else
      var availableWidth := windowWidth - DESKTOP_SIDE_PANEL_WIDTH;
      var availableHeight := windowHeight - DESKTOP_VERTICAL_MARGIN;
      var maxDimension := Min(availableWidth, availableHeight);
      SizeInfo(Min(maxDimension / 8, MAX_SQUARE_SIZE), false)
  }

  /** Within one layout, a larger window never gives smaller squares. */
  lemma SquareSizeMonotone(w1: int, h1: int, w2: int, h2: int)
    requires w1 <= w2 && h1 <= h2
    requires (w1 < 1024) == (w2 < 1024)
    ensures CalculateSquareSize(w1, h1).squareSize <= CalculateSquareSize(w2, h2).squareSize
  {
    var r1 := CalculateSquareSize(w1, h1);
    var r2 := CalculateSquareSize(w2, h2);
    if w1 < 1024 {
      assert 8 * r1.squareSize < 8 * (r2.squareSize + 1);
    } else if r2.squareSize < MAX_SQUARE_SIZE {
      assert 8 * r1.squareSize < 8 * (r2.squareSize + 1);
    }
  }

  /** A desktop window far larger than the board gets the capped size. */
  lemma LargeDesktopIsCapped(windowWidth: int, windowHeight: int)
    requires windowWidth >= DESKTOP_SIDE_PANEL_WIDTH + 8 * MAX_SQUARE_SIZE
    requires windowHeight >= DESKTOP_VERTICAL_MARGIN + 8 * MAX_SQUARE_SIZE
    ensures CalculateSquareSize(windowWidth, windowHeight) == SizeInfo(MAX_SQUARE_SIZE, false)
  {
  }
}
