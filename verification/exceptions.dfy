/** The exception kinds the web app throws and catches. Each is an unchecked
    exception with a message; `Other` stands for every exception type outside
    the app's own (I/O errors, null dereferences, class-cast failures, ...). */
module Exceptions {

  datatype Exception =
    | ImageProcessing(message: string)        // webcam.exception.ImageProcessingException
    | FacePlusPlusApi(message: string)        // webcam.exception.FacePlusPlusApiException
    | FileStorage(message: string)            // webcam.exception.FileStorageException
    | BailianApi(message: string)             // webcam.exception.BailianApiException
    | MaxUploadSizeExceeded(message: string)  // Spring's MaxUploadSizeExceededException
    | IllegalArgument(message: string)        // java.lang.IllegalArgumentException
    | Other(message: string)                  // any other exception

  /** The message the JVM gives a null dereference; its exact text is not modelled. */
  const NullPointerMessage: string := "NullPointerException"

  /** The message the JVM gives a failed cast to String; its exact text is not modelled. */
  const ClassCastMessage: string := "ClassCastException"
}
