/** `webcam.service.impl.R2UploadServiceImpl`: uploads to Cloudflare R2 through the S3
    API and presigns download URLs. The S3 client and the presigner are oracles: each
    is given the request the app builds and answers with a result or the message of
    the exception it throws. */
module R2Upload {
  import opened Support
  import opened Base64
  import opened Exceptions
  import opened FileSystem
  import opened R2UploadService

  /** The `r2.*` settings the service reads. */
  datatype R2Config = R2Config(
    accessKeyId: Option<string>,
    accessKeySecret: Option<string>,
    bucketName: Option<string>,
    endpoint: Option<string>,
    presignedUrlExpiration: int)

  /** `r2.presigned-url-expiration` (default), in seconds. */
  const DefaultPresignedUrlExpiration: int := 600
  const DefaultContentType: string := "application/octet-stream"

  const UploadFilePrefix: string := "上传文件到R2失败: "
  const UploadBase64Prefix: string := "上传Base64数据到R2失败: "
  const PresignPrefix: string := "生成R2预签名URL失败: "
  const NoSuchFilePrefix: string := "文件不存在: "
  /** The message of the IllegalArgumentException `Base64.getDecoder().decode` throws;
      its exact text (which names the offending character) is not modelled. */
  const IllegalBase64Message: string := "Illegal base64 character"

  /** `PutObjectRequest` with its body. */
  datatype PutObjectRequest = PutObjectRequest(bucket: string, key: string, contentType: string, body: seq<byte>)

  /** `GetObjectPresignRequest` together with the presigner's credentials and endpoint. */
  datatype PresignRequest = PresignRequest(
    endpoint: string, accessKeyId: string, accessKeySecret: string,
    bucket: string, key: string, durationSeconds: int)

  /** A setting that is null or "" counts as missing. */
  predicate Unset(v: Option<string>)
  {
    v.None? || v.value == []
  }

  function MissingSetting(name: string): Exception
  {
    FileStorage("R2配置缺失: " + name + "未设置")
  }

  /** `validateR2Configuration()`: the first missing setting, in the order access key id,
      secret, bucket, endpoint, throws FileStorageException naming it. */
  function ValidateR2Configuration(c: R2Config): (r: Result<(), Exception>)
    ensures r.Ok? <==> !Unset(c.accessKeyId) && !Unset(c.accessKeySecret) && !Unset(c.bucketName) && !Unset(c.endpoint)
    ensures r.Err? ==> r.error.FileStorage?
  {
    if Unset(c.accessKeyId) then Err(MissingSetting("accessKeyId"))
    else if Unset(c.accessKeySecret) then Err(MissingSetting("accessKeySecret"))
    else if Unset(c.bucketName) then Err(MissingSetting("bucketName"))
    else if Unset(c.endpoint) then Err(MissingSetting("endpoint"))
    else Ok(())
  }

  /** The settings in the order they are checked, with their names. */
  function CheckedSettings(c: R2Config): seq<(string, Option<string>)>
  {
    [("accessKeyId", c.accessKeyId), ("accessKeySecret", c.accessKeySecret),
     ("bucketName", c.bucketName), ("endpoint", c.endpoint)]
  }

  /** The name of the first unset setting of a list. */
  function FirstUnset(settings: seq<(string, Option<string>)>): Option<string>
  {
    if settings == [] then None
    else if Unset(settings[0].1) then Some(settings[0].0)
    else FirstUnset(settings[1..])
  }

  /** Validation reports exactly the first unset setting, in the checking order. */
  lemma ValidationReportsFirstUnset(c: R2Config)
    ensures ValidateR2Configuration(c) == match FirstUnset(CheckedSettings(c))
                                           case None => Ok(())
                                           case Some(name) => Err(MissingSetting(name))
  {
    var s := CheckedSettings(c);
    assert s[3..][1..] == [];
    assert s[2..][1..] == s[3..];
    assert s[1..][1..] == s[2..];
    assert FirstUnset(s[3..]) == if Unset(c.endpoint) then Some("endpoint") else None;
    assert FirstUnset(s[2..]) == if Unset(c.bucketName) then Some("bucketName") else FirstUnset(s[3..]);
    assert FirstUnset(s[1..]) == if Unset(c.accessKeySecret) then Some("accessKeySecret") else FirstUnset(s[2..]);
    assert FirstUnset(s) == if Unset(c.accessKeyId) then Some("accessKeyId") else FirstUnset(s[1..]);
  }

  /** The catch blocks: a FileStorageException passes through, anything else is
      rethrown as one whose message is `prefix` and the original message. */
  function Rethrow(e: Exception, prefix: string): (r: Exception)
    ensures r.FileStorage?
    ensures e.FileStorage? ==> r == e
    ensures !e.FileStorage? ==> r.message == prefix + e.message
  {
    if e.FileStorage? then e else FileStorage(prefix + e.message)
  }

  /** The content type sent: the given one, or the default for null or "". */
  function EffectiveContentType(contentType: Option<string>): (r: string)
    ensures r != []
    ensures contentType.Some? && contentType.value != [] ==> r == contentType.value
    ensures contentType.None? || contentType.value == [] ==> r == DefaultContentType
  {
    if contentType.None? || contentType.value == [] then DefaultContentType else contentType.value
  }

  /** The request `uploadFromBase64` sends once the settings are complete and the data
      (after any data-URI prefix) decodes. */
  function Base64PutRequest(config: R2Config, base64Data: string, objectKey: string, contentType: Option<string>): PutObjectRequest
    requires ValidateR2Configuration(config).Ok? && Decode(AfterFirstComma(base64Data)).Some?
  {
    PutObjectRequest(config.bucketName.value, objectKey, EffectiveContentType(contentType),
                     Decode(AfterFirstComma(base64Data)).value)
  }

  /** When `uploadFromBase64` returns normally: complete settings, decodable data and an
      accepted put. */
  predicate UploadSucceeds(config: R2Config, put: PutObjectRequest -> Result<string, string>,
                           base64Data: string, objectKey: string, contentType: Option<string>)
  {
    ValidateR2Configuration(config).Ok? && Decode(AfterFirstComma(base64Data)).Some? &&
    put(Base64PutRequest(config, base64Data, objectKey, contentType)).Ok?
  }

  /** `uploadFromBase64(base64Data, objectKey, contentType)`: validates the settings,
      drops a data-URI prefix, decodes, defaults the content type and puts one object.
      Every failure surfaces as FileStorageException; no request is sent unless the
      settings are complete and the data decodes. */
  method UploadFromBase64(config: R2Config, put: PutObjectRequest -> Result<string, string>,
                          base64Data: string, objectKey: string, contentType: Option<string>)
    returns (r: Result<R2ObjectInfo, Exception>, sent: seq<PutObjectRequest>)
    ensures r.Ok? <==> UploadSucceeds(config, put, base64Data, objectKey, contentType)
    ensures r.Err? ==> r.error.FileStorage?
    ensures ValidateR2Configuration(config).Err? ==> r == Err(ValidateR2Configuration(config).error) && sent == []
    ensures ValidateR2Configuration(config).Ok? && Decode(AfterFirstComma(base64Data)).None? ==>
              r == Err(FileStorage(UploadBase64Prefix + IllegalBase64Message)) && sent == []
    ensures ValidateR2Configuration(config).Ok? && Decode(AfterFirstComma(base64Data)).Some? ==>
              var request := Base64PutRequest(config, base64Data, objectKey, contentType);
              sent == [request] &&
              (r.Ok? <==> put(request).Ok?) &&
              (r.Err? ==> r.error == FileStorage(UploadBase64Prefix + put(request).error))
    ensures r.Ok? ==> fresh(r.value) && r.value.presignedUrl == None &&
                      r.value.objectKey == Some(objectKey) && r.value.bucket == config.bucketName &&
                      r.value.size == |sent[0].body| && r.value.contentType == Some(EffectiveContentType(contentType))
  {
    sent := [];
    var valid := ValidateR2Configuration(config);
    if valid.Err? {
      return Err(valid.error), sent;
    }
    var cleanBase64 := base64Data;
    if ',' in cleanBase64 {
      cleanBase64 := cleanBase64[IndexOf(cleanBase64, ',') + 1..];
    }
    var fileContent := Decode(cleanBase64);
    if fileContent.None? {
      return Err(Rethrow(IllegalArgument(IllegalBase64Message), UploadBase64Prefix)), sent;
    }
    var effectiveType := contentType;
    if effectiveType.None? || effectiveType.value == [] {
      effectiveType := Some(DefaultContentType);
    }
    var request := PutObjectRequest(config.bucketName.value, objectKey, effectiveType.value, fileContent.value);
    sent := [request];
    var answer := put(request);
    if answer.Err? {
      return Err(Rethrow(Other(answer.error), UploadBase64Prefix)), sent;
    }
    var info := new R2ObjectInfo(Some(objectKey), config.bucketName, |fileContent.value|, effectiveType);
    return Ok(info), sent;
  }

  /** `uploadFile(filePath, objectKey)`: validates the settings, requires the file to
      exist, reads it, takes the probed content type or the default, and puts one
      object. Every failure surfaces as FileStorageException. */
  method UploadFile(config: R2Config, disk: Disk, put: PutObjectRequest -> Result<string, string>,
                    probeContentType: string -> Option<string>, filePath: string, objectKey: string)
    returns (r: Result<R2ObjectInfo, Exception>, sent: seq<PutObjectRequest>)
    ensures r.Err? ==> r.error.FileStorage?
    ensures ValidateR2Configuration(config).Err? ==> r == Err(ValidateR2Configuration(config).error) && sent == []
    ensures ValidateR2Configuration(config).Ok? && !disk.Exists(filePath) ==>
              r == Err(FileStorage(NoSuchFilePrefix + filePath)) && sent == []
    ensures sent != [] <==> ValidateR2Configuration(config).Ok? && filePath in disk.files
    ensures sent != [] ==>
              var contentType := if probeContentType(filePath).None? then DefaultContentType else probeContentType(filePath).value;
              sent == [PutObjectRequest(config.bucketName.value, objectKey, contentType, disk.files[filePath])] &&
              (r.Ok? <==> put(sent[0]).Ok?) &&
              (r.Ok? ==> fresh(r.value) && r.value.presignedUrl == None &&
                         r.value.objectKey == Some(objectKey) && r.value.bucket == config.bucketName &&
                         r.value.size == |disk.files[filePath]| && r.value.contentType == Some(contentType))
  {
    sent := [];
    var valid := ValidateR2Configuration(config);
    if valid.Err? {
      return Err(valid.error), sent;
    }
    if !disk.Exists(filePath) {
      return Err(FileStorage(NoSuchFilePrefix + filePath)), sent;
    }
    var fileContent := disk.ReadAllBytes(filePath);
    if fileContent.Err? {
      return Err(Rethrow(Other(fileContent.error), UploadFilePrefix)), sent;
    }
    var contentType := probeContentType(filePath);
    if contentType.None? {
      contentType := Some(DefaultContentType);
    }
    var request := PutObjectRequest(config.bucketName.value, objectKey, contentType.value, fileContent.value);
    sent := [request];
    var answer := put(request);
    if answer.Err? {
      return Err(Rethrow(Other(answer.error), UploadFilePrefix)), sent;
    }
    var info := new R2ObjectInfo(Some(objectKey), config.bucketName, |fileContent.value|, contentType);
    return Ok(info), sent;
  }

  /** The presign request built for a key: the configured credentials, endpoint and
      bucket, and a signature valid for `expirationSeconds`. */
  function PresignRequestFor(config: R2Config, objectKey: string, expirationSeconds: int): PresignRequest
    requires ValidateR2Configuration(config).Ok?
  {
    PresignRequest(config.endpoint.value, config.accessKeyId.value, config.accessKeySecret.value,
                   config.bucketName.value, objectKey, expirationSeconds)
  }

  /** `getPresignedUrl(objectKey, expirationSeconds)`: validates the settings and asks
      the presigner for a GET URL whose signature lasts `expirationSeconds`. */
  function GetPresignedUrl(config: R2Config, presign: PresignRequest -> Result<string, string>,
                           objectKey: string, expirationSeconds: int): (r: Result<string, Exception>)
    ensures r.Err? ==> r.error.FileStorage?
    ensures ValidateR2Configuration(config).Err? ==> r == Err(ValidateR2Configuration(config).error)
    ensures ValidateR2Configuration(config).Ok? ==>
              var request := PresignRequest(config.endpoint.value, config.accessKeyId.value, config.accessKeySecret.value,
                                            config.bucketName.value, objectKey, expirationSeconds);
              (r.Ok? <==> presign(request).Ok?) &&
              (r.Ok? ==> r.value == presign(request).value) &&
              (r.Err? ==> r.error == FileStorage(PresignPrefix + presign(request).error))
  {
    var valid := ValidateR2Configuration(config);
    if valid.Err? then Err(valid.error)
    else
      var answer := presign(PresignRequestFor(config, objectKey, expirationSeconds));
      if answer.Err? then Err(Rethrow(Other(answer.error), PresignPrefix)) else Ok(answer.value)
  }
}
