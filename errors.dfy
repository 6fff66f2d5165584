/** The exceptions the client raises, one constructor per raise site. */
module Errors {

  datatype Error =
    | MissingApiKey                          // ValueError in WecoAI.__init__
    | EmptyTaskDescription                   // _build: empty description
    | TaskDescriptionTooLong                 // _build: description over the ceiling
    | InvalidInputTypes                      // _validate_query: text not a str or images not a list
    | ImagesNotStrings                       // _validate_query: an image that is not a str
    | MissingInput                           // _validate_query: neither text nor images
    | TextTooLong                            // _validate_query: text over the ceiling
    | TooManyImages                          // _validate_query: more images than allowed
    | InvalidBase64Image                     // _validate_query: media type without a '/'
    | InvalidImageUrl                        // _validate_query: content type missing or without a '/'
    | InvalidImageSource                     // _validate_query: none of base64, url, local
    | UnsupportedFileType(fileType: string)  // _validate_query: file type outside the allowlist
    | ImageTooLarge                          // _validate_query: size over the ceiling
    | InvalidImageInput                      // get_image_size and _upload_image: unknown source
    | InvalidImageAtIndex(index: nat)        // _query: unknown source at that index
    | NameCountMismatch                      // batch_query: list of names of the wrong length
    | MissingKey(key: string)                // KeyError on a response body
    | NotIterable                            // TypeError iterating a response's "warnings"
    | RequestFailed                          // an HTTP error status or a transport exception
    | ImageReadFailed                        // image bytes that cannot be read or decoded
    | ImageSaveFailed                        // _upload_image: the image cannot be saved in its format
}
