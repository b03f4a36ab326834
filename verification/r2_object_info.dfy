/** `webcam.service.R2UploadService.R2ObjectInfo`: what an upload to the object store
    reports. Its getters return the fields, which are read directly here. */
module R2UploadService {
  import opened Support

  class R2ObjectInfo {
    var objectKey: Option<string>
    var bucket: Option<string>
    /** `long size`: the number of bytes uploaded. */
    var size: int
    var contentType: Option<string>
    /** Unset by the constructor; filled in later by a caller, if at all. */
    var presignedUrl: Option<string>

    /** Stores the four values as given; no presigned URL yet. */
    constructor (objectKey: Option<string>, bucket: Option<string>, size: int, contentType: Option<string>)
      ensures this.objectKey == objectKey && this.bucket == bucket
      ensures this.size == size && this.contentType == contentType
      ensures presignedUrl == None
    {
      this.objectKey := objectKey;
      this.bucket := bucket;
      this.size := size;
      this.contentType := contentType;
      presignedUrl := None;
    }

    /** `setPresignedUrl`: changes the presigned URL and nothing else. */
    method SetPresignedUrl(presignedUrl: Option<string>)
      modifies this`presignedUrl
      ensures this.presignedUrl == presignedUrl
    {
      this.presignedUrl := presignedUrl;
    }
  }
}
