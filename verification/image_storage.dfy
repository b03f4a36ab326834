/** `webcam.service.ImageStorageServiceImpl`: saving uploaded images under the upload
    directory, and the string helpers the controllers use on data URIs. */
module ImageStorage {
  import opened Support
  import opened Base64
  import opened Exceptions
  import opened FileSystem

  /** `webcam.upload.base-url` (default) */
  const BaseUrl: string := "http://" + "localhost" + ":8080/upload/"
  /** `webcam.upload.path` (default "upload/"), as `Paths.get` prints it: without the
      trailing separator. */
  const UploadDir: string := "upload"

  const EmptyImageMessage: string := "图像数据不能为空"
  const BadFormatMessage: string := "无效的图像数据格式"
  const TooSmallMessage: string := "图像数据过小，可能不是有效的图像"
  const DecodeFailedMessage: string := "Base64解码失败，图像数据格式错误"
  const SaveFailedPrefix: string := "文件保存失败: "

  /** The shortest payload that passes validation. */
  const MinPayloadLength: nat := 100

  /** `extractBase64Data(imageData)`: null stays null; otherwise everything after the
      first comma (a data-URI prefix is dropped), or the whole text when there is none. */
  function ExtractBase64Data(imageData: Option<string>): (r: Option<string>)
    ensures imageData.None? <==> r.None?
    ensures imageData.Some? && ',' !in imageData.value ==> r == imageData
    ensures imageData.Some? && ',' in imageData.value ==>
              exists p :: p + [','] + r.value == imageData.value && ',' !in p
  {
    if imageData.None? then None else Some(AfterFirstComma(imageData.value))
  }

  /** A data URI loses exactly its prefix: the payload after "data:…;base64," comes back
      unchanged, whatever it holds. */
  lemma {:induction false} ExtractDropsPrefix(prefix: string, payload: string)
    requires ',' !in prefix
    ensures ExtractBase64Data(Some(prefix + "," + payload)) == Some(payload)
  {
    var s := prefix + "," + payload;
    assert s[|prefix|] == ',';
    var i := IndexOf(s, ',');
    assert s[..|prefix|] == prefix;
    assert i == |prefix|;
    assert s[i + 1..] == payload;
  }

  /** `getImageUrl(fileName)`: the public URL of a saved file. */
  function GetImageUrl(fileName: string): (r: string)
    ensures StartsWith(r, BaseUrl) && r[|BaseUrl|..] == fileName
  {
    BaseUrl + fileName
  }

  /** `validateImageData(imageData)`: throws IllegalArgumentException for null or blank
      data, for a blank payload and for a payload under 100 characters. */
  function ValidateImageData(imageData: Option<string>): (r: Result<(), Exception>)
    ensures r.Err? ==> r.error.IllegalArgument?
    ensures imageData.None? || IsBlank(imageData.value) ==> r == Err(IllegalArgument(EmptyImageMessage))
  {
    if imageData.None? || IsBlank(imageData.value) then Err(IllegalArgument(EmptyImageMessage))
    else
      var base64Data := ExtractBase64Data(imageData);
      if base64Data.None? || IsBlank(base64Data.value) then Err(IllegalArgument(BadFormatMessage))
      else if |base64Data.value| < MinPayloadLength then Err(IllegalArgument(TooSmallMessage))
      else Ok(())
  }

  /** A blank text has only blank suffixes. */
  lemma BlankSuffix(s: string, k: nat)
    requires k <= |s| && IsBlank(s)
    ensures IsBlank(s[k..])
  {
    BlankIffAllTrimmed(s);
    BlankIffAllTrimmed(s[k..]);
    forall i | 0 <= i < |s[k..]| ensures IsTrimmed(s[k..][i]) {
      assert s[k..][i] == s[k + i];
    }
  }

  /** Data passes validation exactly when its payload (the text after the first comma)
      is not blank and has at least 100 characters. */
  lemma ValidIffPayload(imageData: Option<string>)
    ensures ValidateImageData(imageData).Ok? <==>
              imageData.Some? && !IsBlank(ExtractBase64Data(imageData).value) &&
              |ExtractBase64Data(imageData).value| >= MinPayloadLength
  {
    if imageData.Some? && IsBlank(imageData.value) {
      var s := imageData.value;
      var payload := ExtractBase64Data(imageData).value;
      assert s[|s| - |payload|..] == payload by {
        if ',' in s {
          var p :| p + [','] + payload == s && ',' !in p;
          assert s[|p| + 1..] == payload;
        }
      }
      BlankSuffix(s, |s| - |payload|);
    }
  }

  /** `saveBase64Image(base64Data, fileName)`: makes sure the upload directory exists,
      decodes the data and writes it to `upload/{fileName}`. Undecodable data throws
      ImageProcessingException before anything is written; an I/O error throws
      FileStorageException. */
  method SaveBase64Image(disk: Disk, base64Data: string, fileName: string) returns (r: Result<string, Exception>)
    modifies disk
    ensures r.Ok? <==> !disk.failing && Decode(base64Data).Some?
    ensures r.Ok? ==> r.value == Resolve(UploadDir, fileName) &&
                      disk.files == old(disk.files)[r.value := Decode(base64Data).value]
    ensures r.Err? ==> disk.files == old(disk.files)
    ensures Decode(base64Data).None? && (old(disk.Exists(UploadDir)) || !disk.failing) ==>
              r == Err(ImageProcessing(DecodeFailedMessage))
    ensures r == Err(ImageProcessing(DecodeFailedMessage)) ==>
              Decode(base64Data).None? && (old(disk.Exists(UploadDir)) || !disk.failing)
    ensures r.Err? && r.error != ImageProcessing(DecodeFailedMessage) ==>
              disk.failing && r.error == FileStorage(SaveFailedPrefix + IoErrorMessage)
    ensures disk.dirs == old(disk.dirs) || disk.dirs == old(disk.dirs) + {UploadDir}
  {
    var uploadPath := UploadDir;
    if !disk.Exists(uploadPath) {
      var created := disk.CreateDirectories(uploadPath);
      if created.Err? {
        return Err(FileStorage(SaveFailedPrefix + created.error));
      }
    }
    var imageBytes := Decode(base64Data);
    if imageBytes.None? {
      return Err(ImageProcessing(DecodeFailedMessage));
    }
    var filePath := Resolve(uploadPath, fileName);
    var written := disk.Write(filePath, imageBytes.value);
    if written.Err? {
      return Err(FileStorage(SaveFailedPrefix + written.error));
    }
    return Ok(filePath);
  }
}
