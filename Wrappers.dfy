/** Option and Result values, and the ways a run of the exporter can fail.
    Every `log.Fatalf` of the exporter becomes one `Failure` that stops the run. */
module Wrappers {

  datatype Option<+T> = None | Some(value: T)

  /** Why a download into an image file did not succeed (`grabImage`). */
  datatype DownloadError =
    | CreateFailed      // the image file could not be created
    | GetFailed         // the HTTP GET of the thumbnail URL failed
    | CopyFailed        // copying the response body into the file failed
    | EmptyDownload     // the copy succeeded but transferred zero bytes

  /** One fatal error of the exporter, by the step that reports it. */
  datatype Failure =
    | CredentialsUnreadable                         // credentials.json cannot be read
    | CredentialsInvalid                            // its contents do not parse as a client config
    | AuthCodeUnreadable                            // no authorization code could be read
    | ExchangeFailed                                // the code could not be exchanged for a token
    | TokenUnsaved                                  // token.json cannot be opened for writing
    | NotesUncreatable                              // notes.txt cannot be created
    | DeckUnavailable                               // the presentation cannot be fetched
    | ThumbnailFailed(slide: nat)                   // no thumbnail for slide `slide` (1-based)
    | ImageFailed(slide: nat, cause: DownloadError) // the image of slide `slide` was not downloaded

  datatype Result<+T> = Ok(value: T) | Err(failure: Failure)
}
