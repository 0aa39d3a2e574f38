/** The two values of a UI element's `style.display` that the game uses. */
module Display {

  datatype DisplayStyle = Flex | None

  /** The display a screen gets from its visibility flag: `flag ? Flex : None`. */
  function DisplayFor(visible: bool): DisplayStyle
  {
    if visible then Flex else None
  }
}
