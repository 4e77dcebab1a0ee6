/** The upload validator of ImageUploader.tsx and the handler that feeds a
    valid file into the wizard. */
module ImageUploader {
  import opened Wrappers
  import opened Types
  import App

  const ValidTypes := ["image/jpeg", "image/png", "image/webp"]

  /** 20 MiB */
  const MaxSize := 20 * 1024 * 1024

  const InvalidTypeMessage := "Tipo di file non valido. Carica un'immagine JPEG, PNG o WEBP. Nota: i file .RAF non sono supportati in questa demo."
  const TooLargeMessage := "File troppo grande. Carica un'immagine più piccola di 20MB."

  /** handleFileValidation: the type is checked first, then the size. The
      result is the one error message reported, or None when the file is valid. */
  function HandleFileValidation(file: ImageFile): (error: Option<string>)
    ensures error.None? <==> file.mimeType in ValidTypes && file.size <= MaxSize
    ensures file.mimeType !in ValidTypes ==> error == Some(InvalidTypeMessage)
    ensures file.mimeType in ValidTypes && file.size > MaxSize ==> error == Some(TooLargeMessage)
  {
    if file.mimeType !in ValidTypes then Some(InvalidTypeMessage)
    else if file.size > MaxSize then Some(TooLargeMessage)
    else None
  }

  /** Exactly 20 MiB passes; one byte more is too large. */
  lemma SizeBoundIsInclusive(name: string, mimeType: string)
    requires mimeType in ValidTypes
    ensures HandleFileValidation(ImageFile(name, mimeType, 20971520)).None?
    ensures HandleFileValidation(ImageFile(name, mimeType, 20971521)) == Some(TooLargeMessage)
  {
  }

  /** A file with a bad type reports only the type message, whatever its size. */
  lemma TypeCheckedFirst(file: ImageFile)
    requires file.mimeType !in ValidTypes
    ensures HandleFileValidation(file) == Some(InvalidTypeMessage)
    ensures HandleFileValidation(file) != Some(TooLargeMessage)
  {
  }

  /** handleFileSelect: clear the error, then hand a present and valid file
      to the wizard; an invalid file only leaves its error message. */
  method HandleFileSelect(app: App.AppState, file: Option<ImageFile>)
    requires app.Valid()
    modifies app
    ensures app.Valid()
    ensures file.None? ==> app.State() == old(app.State()).(error := None)
    ensures file.Some? && HandleFileValidation(file.value).Some? ==>
              app.State() == old(app.State()).(error := HandleFileValidation(file.value))
    ensures file.Some? && HandleFileValidation(file.value).None? ==>
              app.State() == App.AfterImageSelect(file.value)
  {
    app.SetError(None);
    if file.Some? {
      var error := HandleFileValidation(file.value);
      if error.Some? {
        app.SetError(error);
      } else {
        app.ImageSelect(file.value);
      }
    }
  }
}
