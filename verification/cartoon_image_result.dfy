/** `webcam.dto.CartoonImageResult`: the mutable bundle the cartoon pipeline fills in.
    Its getters return the fields, which are read directly here. */
module Dto {
  import opened Support

  /** The six fields of a result, as one value. */
  datatype ResultFields = ResultFields(
    localUrl: Option<string>,
    r2Url: Option<string>,
    presignedUrl: Option<string>,
    qrCodeBase64: Option<string>,
    r2ObjectKey: Option<string>,
    fileSize: int)

  class CartoonImageResult {
    var localUrl: Option<string>
    var r2Url: Option<string>
    var presignedUrl: Option<string>
    var qrCodeBase64: Option<string>
    var r2ObjectKey: Option<string>
    /** `long fileSize`, in bytes. */
    var fileSize: int

    function Fields(): ResultFields
      reads this
    {
      ResultFields(localUrl, r2Url, presignedUrl, qrCodeBase64, r2ObjectKey, fileSize)
    }

    /** The no-argument constructor: every string field null, size 0. */
    constructor ()
      ensures Fields() == ResultFields(None, None, None, None, None, 0)
    {
      localUrl, r2Url, presignedUrl, qrCodeBase64, r2ObjectKey := None, None, None, None, None;
      fileSize := 0;
    }

    /** The six-argument constructor: each argument lands in its own field. */
    constructor Full(localUrl: Option<string>, r2Url: Option<string>, presignedUrl: Option<string>,
                     qrCodeBase64: Option<string>, r2ObjectKey: Option<string>, fileSize: int)
      ensures Fields() == ResultFields(localUrl, r2Url, presignedUrl, qrCodeBase64, r2ObjectKey, fileSize)
    {
      this.localUrl := localUrl;
      this.r2Url := r2Url;
      this.presignedUrl := presignedUrl;
      this.qrCodeBase64 := qrCodeBase64;
      this.r2ObjectKey := r2ObjectKey;
      this.fileSize := fileSize;
    }

    method SetLocalUrl(localUrl: Option<string>)
      modifies this`localUrl
      ensures Fields() == old(Fields()).(localUrl := localUrl)
    {
      this.localUrl := localUrl;
    }

    method SetR2Url(r2Url: Option<string>)
      modifies this`r2Url
      ensures Fields() == old(Fields()).(r2Url := r2Url)
    {
      this.r2Url := r2Url;
    }

    method SetPresignedUrl(presignedUrl: Option<string>)
      modifies this`presignedUrl
      ensures Fields() == old(Fields()).(presignedUrl := presignedUrl)
    {
      this.presignedUrl := presignedUrl;
    }

    method SetQrCodeBase64(qrCodeBase64: Option<string>)
      modifies this`qrCodeBase64
      ensures Fields() == old(Fields()).(qrCodeBase64 := qrCodeBase64)
    {
      this.qrCodeBase64 := qrCodeBase64;
    }

    method SetR2ObjectKey(r2ObjectKey: Option<string>)
      modifies this`r2ObjectKey
      ensures Fields() == old(Fields()).(r2ObjectKey := r2ObjectKey)
    {
      this.r2ObjectKey := r2ObjectKey;
    }

    method SetFileSize(fileSize: int)
      modifies this`fileSize
      ensures Fields() == old(Fields()).(fileSize := fileSize)
    {
      this.fileSize := fileSize;
    }
  }
}
