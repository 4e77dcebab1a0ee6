/** The records of types.ts, plus the two browser `File` attributes the
    application reads. */
module Types {

  /** One palette entry as the remote model reports it. */
  datatype ExtractedColor = ExtractedColor(hex: string, name: string, semantic: string)

  datatype ColorPalette = ColorPalette(colors: seq<ExtractedColor>)

  /** A user-chosen file: its declared MIME type (`file.type`) and its size in bytes. */
  datatype ImageFile = ImageFile(name: string, mimeType: string, size: nat)
}
