/** The LVGL colours the displays use. LVGL itself is not part of this
    model; the palette numbers follow the order of LVGL 9's lv_palette_t,
    where LV_PALETTE_NONE is 0xff. */
module Palette {

  const Red: int := 0
  const Pink: int := 1
  const Purple: int := 2
  const Blue: int := 5
  const LightBlue: int := 6
  const LightGreen: int := 10
  const Yellow: int := 12
  const Orange: int := 14
  const Grey: int := 18
  const PaletteNone: int := 0xff

  /** A colour handed to LVGL: white, the main shade of a palette, or a
      literal RGB value. */
  datatype Colour = White | PaletteMain(palette: int) | Hex(rgb: int)

  /** The note-name colour most displays use: white when no palette is
      chosen, otherwise the palette's main shade. */
  function NoteColour(palette: int): (c: Colour)
    ensures palette == PaletteNone <==> c == White
    ensures palette != PaletteNone ==> c == PaletteMain(palette)
  {
    if palette == PaletteNone then White else PaletteMain(palette)
  }
}
