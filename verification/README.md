# Webcam face-attribute and cartoon service, modelled in Dafny

The system is a Spring web application. A user posts a webcam photo. The server checks the
image, saves it, runs Face++ detection on it and answers with the detected attributes. The
attributes are glasses, smile, gender and age, as Chinese labels, plus the image's URL. A
result page pairs the user with a celebrity photo of the opposite gender. A second endpoint
turns a photo into a cartoon through the DashScope (Bailian) image API:

- it polls the asynchronous task;
- it downloads and saves the picture;
- then, best effort, it copies the picture to Cloudflare R2, presigns a download URL and
  draws a QR code for that URL.

An optional DeepSeek call writes a compliment from the attributes. A global exception
handler turns each exception kind into a status, an error code and a response body.

The model has one Dafny module per Java source file:

| module | models |
|---|---|
| `MapUtil` | the label rules |
| `CelebrityConfig` | the celebrity photo pools |
| `CelebrityPhotoService` | the pool choice |
| `ImageStorage` | the local image store |
| `R2UploadService` | the R2 object info |
| `R2Upload` | the R2 client |
| `Dto` | the cartoon result |
| `CartoonService` | the cartoon pipeline |
| `FaceRecognition` | the Face++ response parser |
| `DeepSeekPraise` | the compliment service |
| `ResultController`, `WebcamController`, `CartoonController` | the three controllers |
| `ApiResponses` | the uniform response body |
| `ExceptionHandler` | the global handler |

Four helper modules stand in for the libraries the code leans on:

- `Support`: Option and Result, plus Java string operations such as `contains`, `indexOf`,
  `trim`, `toLowerCase` and decimal rendering.
- `Json`: the Jackson tree.
- `Base64`: `java.util.Base64`, with a proved round trip.
- `FileSystem`: `java.nio.file.Files`, as a disk object whose writes can fail.

**Modelling conventions**

- Remote services and libraries are function-typed inputs. These are the HTTP exchanges,
  the S3 client and presigner, the ZXing QR encoder and the Face++ and DeepSeek calls. Each
  contract can then say which request was sent.
- UUIDs, clocks and random numbers are inputs as well.
- A Java `null` is `None`.
- A thrown exception is an `Err` carrying a value of the `Exception` datatype.
- Objects whose fields the code updates in place are Dafny classes:
  - `CartoonImageResult`;
  - `R2ObjectInfo`;
  - `ApiResponse`;
  - `CelebrityProperties`;
  - the Spring `Model` of the result page.

  Their setters are methods that change one field.

## Model

| member | source | states |
|---|---|---|
| MapUtil.HasHighConfidence | src/main/java/webcam/MapUtil.java:51-53 | a key missing from the eye map is never high confidence (it reads as 0); a high-confidence key holds a value of at least 90 |
| MapUtil.Glass | src/main/java/webcam/MapUtil.java:21-46 | a null or empty eye map is 无法识别; the result is always one of the seven labels |
| MapUtil.GlassFollowsLadder | src/main/java/webcam/MapUtil.java:21-46 | for a non-empty map, `glass` agrees with a reference reading: the label of the first rung of the six-rung priority ladder that qualifies |
| MapUtil.GlassPriority | src/main/java/webcam/MapUtil.java:26-53 | `glass` gives rung k's label iff either eye reaches 90 on rung k (a missing key reads 0) and on no earlier rung; it gives 无法识别 iff no rung qualifies |
| MapUtil.Smiling | src/main/java/webcam/MapUtil.java:62-70 | the label is one of 笑的灿烂, 微笑 and 不笑, and it is 不笑 exactly when the value does not exceed the threshold |
| MapUtil.SmilingBands | src/main/java/webcam/MapUtil.java:62-70 | 笑的灿烂 iff value > t+30, 微笑 iff t < value ≤ t+30, 不笑 iff value ≤ t (so value == t is 不笑); the label is monotone in the value |
| MapUtil.Gender | src/main/java/webcam/MapUtil.java:78-89 | null gives 未知; an input whose lower case contains "male" or "男" gives 男性, whatever else it contains |
| MapUtil.GenderAsWrittenMisreadsFemale | src/main/java/webcam/MapUtil.java:82-86 | as written, every input whose lower case contains "female" is read as 男性 |
| MapUtil.GenderFemaleCounterexample | src/main/java/webcam/MapUtil.java:83-86 | as written, `gender("Female")` is 男性 |
| MapUtil.GenderIntended | src/main/java/webcam/MapUtil.java:78-89 | corrected reading: null gives 未知, any "female" gives 女性 |
| MapUtil.GenderIntendedFemale | src/main/java/webcam/MapUtil.java:85-86 | the corrected reading maps "Female", "FEMALE" and 女性 to 女性 |
| MapUtil.GenderIntendedMale | src/main/java/webcam/MapUtil.java:83-84 | the corrected reading maps "Male", "MALE" and 男性 to 男性 |
| MapUtil.PDesc | src/main/java/webcam/MapUtil.java:97-107 | the description is never empty, and an index outside 1..7 gives the default 匹配成功！ |
| MapUtil.PDescDefault | src/main/java/webcam/MapUtil.java:97-107 | `pDesc(i)` differs from the default 匹配成功！ exactly for 1 ≤ i ≤ 7 |
| MapUtil.PDescDistinct | src/main/java/webcam/MapUtil.java:98-105 | within 1..7, two indices share a text iff they are equal or both are 6 or 7 |
| CelebrityConfig.CelebrityProperties.constructor | src/main/java/webcam/config/CelebrityProperties.java:22-25 | a new configuration holds the ten numbered male photos and the ten numbered female photos |
| CelebrityConfig.CelebrityProperties.InitializeMalePhotos | src/main/java/webcam/config/CelebrityProperties.java:27-41 | ten appends to the empty male list leave exactly the numbered male photos; the female list is unchanged |
| CelebrityConfig.CelebrityProperties.InitializeFemalePhotos | src/main/java/webcam/config/CelebrityProperties.java:43-57 | ten appends to the empty female list leave exactly the numbered female photos; the male list is unchanged |
| CelebrityConfig.CelebrityProperties.SetMalePhotos | src/main/java/webcam/config/CelebrityProperties.java:63-65 | replaces the male list wholesale and leaves the female list unchanged |
| CelebrityConfig.CelebrityProperties.SetFemalePhotos | src/main/java/webcam/config/CelebrityProperties.java:71-73 | replaces the female list wholesale and leaves the male list unchanged |
| CelebrityConfig.MalePhotosAre | src/main/java/webcam/config/CelebrityProperties.java:31-40 | the male pool is "/male/1.png" … "/male/10.png" in order |
| CelebrityConfig.FemalePhotosAre | src/main/java/webcam/config/CelebrityProperties.java:47-56 | the female pool is "/female/1.png" … "/female/10.png" in order |
| CelebrityConfig.PhotoUnderDir | src/main/java/webcam/config/CelebrityProperties.java:31-56 | every entry of a pool lies under that pool's directory |
| CelebrityConfig.DefaultPoolsDisjoint | src/main/java/webcam/config/CelebrityProperties.java:27-57 | both pools have ten entries and no photo is in both |
| CelebrityPhotoService.RandomCelebrityPhoto | src/main/java/webcam/service/impl/CelebrityPhotoServiceImpl.java:31-43 | null exactly for a null or empty selected pool; otherwise a member of that pool; the only member of a one-photo pool |
| CelebrityPhotoService.PoolChoice | src/main/java/webcam/service/impl/CelebrityPhotoServiceImpl.java:32-34 | "female" in any case selects the female pool; null, "MALE" and 女性 select the male pool |
| CelebrityPhotoService.DefaultSelection | src/main/java/webcam/service/impl/CelebrityPhotoServiceImpl.java:31-43 | with the constructed pools, the photo is number draw mod 10 + 1 of the female pool for "female" and of the male pool otherwise |
| ImageStorage.ExtractBase64Data | src/main/java/webcam/service/ImageStorageServiceImpl.java:68-79 | null stays null; input without a comma is unchanged; otherwise the result is what follows the first comma |
| ImageStorage.ExtractDropsPrefix | src/main/java/webcam/service/ImageStorageServiceImpl.java:74-76 | a comma-free prefix, a comma and a payload give back exactly the payload |
| ImageStorage.GetImageUrl | src/main/java/webcam/service/ImageStorageServiceImpl.java:82-84 | the URL is the base URL followed by the file name |
| ImageStorage.ValidateImageData | src/main/java/webcam/service/ImageStorageServiceImpl.java:87-104 | every rejection is an IllegalArgumentException; null or whitespace-only input is rejected as empty |
| ImageStorage.ValidIffPayload | src/main/java/webcam/service/ImageStorageServiceImpl.java:87-104 | input is accepted iff it is present and its payload is neither blank nor shorter than 100 characters |
| ImageStorage.SaveBase64Image | src/main/java/webcam/service/ImageStorageServiceImpl.java:36-65 | succeeds iff the data decodes and the disk does not fail; on success writes the decoded bytes to `upload/{fileName}` and returns that path; undecodable data is an ImageProcessingException unless the missing upload directory cannot be created first, and that exception means exactly that; an I/O failure is a FileStorageException with the "文件保存失败: " prefix; nothing is written on failure |
| R2UploadService.R2ObjectInfo.constructor | src/main/java/webcam/service/R2UploadService.java:55-60 | stores key, bucket, size and content type verbatim; the presigned URL starts absent |
| R2UploadService.R2ObjectInfo.SetPresignedUrl | src/main/java/webcam/service/R2UploadService.java:82-84 | changes only the presigned URL |
| R2Upload.ValidateR2Configuration | src/main/java/webcam/service/impl/R2UploadServiceImpl.java:188-201 | passes iff none of the four settings is null or empty; every failure is a FileStorageException |
| R2Upload.ValidationReportsFirstUnset | src/main/java/webcam/service/impl/R2UploadServiceImpl.java:188-201 | the error names exactly the first unset setting in the order accessKeyId, accessKeySecret, bucketName, endpoint |
| R2Upload.Rethrow | src/main/java/webcam/service/impl/R2UploadServiceImpl.java:85-90 | a FileStorageException passes unchanged; any other exception becomes one whose message is the prefix and the original message |
| R2Upload.EffectiveContentType | src/main/java/webcam/service/impl/R2UploadServiceImpl.java:110-112 | null or "" becomes application/octet-stream; any other type is kept; the result is never empty |
| R2Upload.UploadFromBase64 | src/main/java/webcam/service/impl/R2UploadServiceImpl.java:94-135 | validation runs first; a missing setting or undecodable data sends nothing; otherwise exactly one put is sent, with the configured bucket, the key, the effective type and the bytes after the first comma decoded; success returns info whose key, bucket, size (the decoded length) and type match that request; every failure is a FileStorageException |
| R2Upload.UploadFile | src/main/java/webcam/service/impl/R2UploadServiceImpl.java:52-91 | validation runs first; a nonexistent path fails with "文件不存在: " before any put; a put is sent iff the settings are complete and the file reads; it uses the probed type or the default; the info matches the request; every failure is a FileStorageException |
| R2Upload.GetPresignedUrl | src/main/java/webcam/service/impl/R2UploadServiceImpl.java:138-183 | validation runs first; the presigner is asked with the configured credentials, endpoint and bucket, the key, and a signature lasting exactly `expirationSeconds`; its URL is returned, its failure wrapped as FileStorageException |
| Dto.CartoonImageResult.constructor | src/main/java/webcam/dto/CartoonImageResult.java:19-20 | every string field starts absent and `fileSize` starts 0 |
| Dto.CartoonImageResult.Full | src/main/java/webcam/dto/CartoonImageResult.java:22-30 | stores the six arguments, in order, in their fields |
| Dto.CartoonImageResult.SetLocalUrl | src/main/java/webcam/dto/CartoonImageResult.java:36-38 | changes only `localUrl` |
| Dto.CartoonImageResult.SetR2Url | src/main/java/webcam/dto/CartoonImageResult.java:44-46 | changes only `r2Url` |
| Dto.CartoonImageResult.SetPresignedUrl | src/main/java/webcam/dto/CartoonImageResult.java:52-54 | changes only `presignedUrl` |
| Dto.CartoonImageResult.SetQrCodeBase64 | src/main/java/webcam/dto/CartoonImageResult.java:60-62 | changes only `qrCodeBase64` |
| Dto.CartoonImageResult.SetR2ObjectKey | src/main/java/webcam/dto/CartoonImageResult.java:68-70 | changes only `r2ObjectKey` |
| Dto.CartoonImageResult.SetFileSize | src/main/java/webcam/dto/CartoonImageResult.java:76-78 | changes only `fileSize` |
| CartoonService.IsLocalUrl | src/main/java/webcam/service/impl/CartoonImageServiceImpl.java:146-151 | a null or empty URL is not local; a URL starting with "/" is local |
| CartoonService.ExtractLocalPath | src/main/java/webcam/service/impl/CartoonImageServiceImpl.java:511-536 | a URL under the upload base URL names the file after the base URL in the upload directory; otherwise a URL whose path starts with "/upload/" names the file after that prefix; every other URL, including one whose path cannot be read, gives null |
| CartoonService.SavedImageIsLocal | src/main/java/webcam/service/impl/CartoonImageServiceImpl.java:146-151 | the public URL of a saved image counts as local, and the local path it leads back to is that image's file |
| CartoonService.CartoonFileName | src/main/java/webcam/service/impl/CartoonImageServiceImpl.java:438 | the cartoon's file name starts with "cartoon_" and ends with ".jpeg" |
| CartoonService.GenerateR2ObjectKey | src/main/java/webcam/service/impl/CartoonImageServiceImpl.java:502-506 | the key is `cartoon/{uuid}-…` ending in ".jpeg" |
| CartoonService.ObjectKeyInjective | src/main/java/webcam/service/impl/CartoonImageServiceImpl.java:502-506 | for equal-length UUIDs, two keys coincide only for the same UUID and the same millisecond |
| CartoonService.ClassifyResponse | src/main/java/webcam/service/impl/CartoonImageServiceImpl.java:277-321 | the reply is an API error exactly when it has a `code` other than "Success" |
| CartoonService.ClassifyIsFirstRule | src/main/java/webcam/service/impl/CartoonImageServiceImpl.java:282-321 | the classification equals the first applicable rule in the fixed order: error code, task id, `output.results[0].url`, `data.image_url`, `data.url`, else null; so a task id wins over results |
| CartoonService.StatusText | src/main/java/webcam/service/impl/CartoonImageServiceImpl.java:199 | a status prints as its code followed by the HttpStatus constant's name, or as the bare code when there is no constant |
| CartoonService.ReplyOutcome | src/main/java/webcam/service/impl/CartoonImageServiceImpl.java:159-211 | a thrown call, a status other than 200 (with the printed status and the body or "Unknown error"), a null body and an unparsable body each give their BailianApiException; a parsed 200 body gives the API error exception when it has an error code and otherwise exactly its classification |
| CartoonService.PollStep | src/main/java/webcam/service/impl/CartoonImageServiceImpl.java:353-391 | a thrown call or an unparsable 200 body fails with "轮询任务结果失败: "; SUCCEEDED or SUCCESS finishes iff `output.results[0].url` is present, with that URL; FAILED or FAIL fails with `output.message` or "任务执行失败"; polling continues exactly in the remaining cases (not 200, null body, no `output`, another status, or success without a URL) |
| CartoonService.PollStopsAtFirstVerdict | src/main/java/webcam/service/impl/CartoonImageServiceImpl.java:337-382 | polling stops at the first reply that is not "keep polling", after exactly that many polls and never more than 30; 30 replies that keep polling end in the timeout error naming `taskId` |
| CartoonService.FirstVerdictDecides | src/main/java/webcam/service/impl/CartoonImageServiceImpl.java:340-369 | the poll count is the index of the first deciding reply plus one, and a success returns that reply's URL |
| CartoonService.PollTaskResult | src/main/java/webcam/service/impl/CartoonImageServiceImpl.java:334-393 | the loop returns what the reference polling function gives, with the same poll count |
| CartoonService.ApiResultBounds | src/main/java/webcam/service/impl/CartoonImageServiceImpl.java:159-211 | every failure is a BailianApiException; the call polls only when the reply names a task, and at most 30 times |
| CartoonService.CallCartoonApi | src/main/java/webcam/service/impl/CartoonImageServiceImpl.java:159-271 | one POST, then polling for a task; the result and poll count are the reference call's |
| CartoonService.CheckDownload | src/main/java/webcam/service/impl/CartoonImageServiceImpl.java:400-435 | the download passes iff it fetched with status 200 and at least one byte, and then yields those bytes; otherwise a BailianApiException |
| CartoonService.Enrichment | src/main/java/webcam/service/impl/CartoonImageServiceImpl.java:451-481 | the optional fields fill in order: a presigned URL only after the key, a QR code only after the presigned URL; a QR code carries the PNG data-URI prefix |
| CartoonService.EnrichmentOfDownload | src/main/java/webcam/service/impl/CartoonImageServiceImpl.java:451-481 | the key is set iff the settings are complete and the store accepts those very bytes as image/jpeg; the URL is the presigner's answer for the configured lifetime; the QR payload decodes to the PNG drawn for that URL at 400×400 |
| CartoonService.DownloadAndSave | src/main/java/webcam/service/impl/CartoonImageServiceImpl.java:400-497 | a failed download check throws before the disk is touched; otherwise the bytes are saved as `cartoon_{uuid}.jpeg` and the result has `localUrl`, `fileSize` = byte count, `r2Url` absent and the enrichment fields; a failed save is a BailianApiException |
| CartoonService.RethrowFromUrl | src/main/java/webcam/service/impl/CartoonImageServiceImpl.java:118-139 | wrapping the failure of an outcome of `generateCartoonImage` in the from-URL prefix gives an outcome of `generateCartoonImageFromUrl` for the same API answer |
| CartoonService.GenerateCartoonImage | src/main/java/webcam/service/impl/CartoonImageServiceImpl.java:76-106 | an unreadable photo fails without a call; otherwise the outcome of the API call on the photo's JPEG data URI: the polls it made, a download iff it named a non-empty URL, its failure rethrown, null without a picture; then a failed download check is rethrown with the files unchanged, and the result succeeds iff the disk does not fail, saving the bytes to `cartoon_{uuid}.jpeg` with the local URL, the size and the enrichment |
| CartoonService.GenerateCartoonImageFromUrl | src/main/java/webcam/service/impl/CartoonImageServiceImpl.java:109-141 | a local URL whose file exists takes the file route: the same outcome as `generateCartoonImage` on that file, with failures wrapped; an existing path that is no file fails with the read error; any other URL is posted as it is, with the same outcome rules; every failure carries the "从URL生成卡通图片失败: " prefix; at most 30 polls |
| Base64.DecodeEncode | src/main/java/webcam/service/impl/CartoonImageServiceImpl.java:439-442 | decoding what the encoder produced gives back the bytes, so the saved file holds the downloaded bytes |
| FaceRecognition.EyeFieldsListed | src/main/java/webcam/service/FaceRecognitionServiceImpl.java:193-209 | an eye has all readings iff it has the six Face++ fields; its keys are the six prefixed names |
| FaceRecognition.EyeReadingsAre | src/main/java/webcam/service/FaceRecognitionServiceImpl.java:193-209 | an eye's readings have exactly the six prefixed keys, each holding the value of its Face++ field |
| FaceRecognition.PutEyeReadings | src/main/java/webcam/service/FaceRecognitionServiceImpl.java:193-209 | succeeds iff every reading is present; the map is then the old one overlaid with the eye's readings |
| FaceRecognition.EyeKeysDisjoint | src/main/java/webcam/service/FaceRecognitionServiceImpl.java:194-208 | the left-eye and right-eye keys never collide |
| FaceRecognition.EyeStatusMapUnique | src/main/java/webcam/service/FaceRecognitionServiceImpl.java:187-212 | the described eye map is unique |
| FaceRecognition.EyeStatusMapIsTheMap | src/main/java/webcam/service/FaceRecognitionServiceImpl.java:187-212 | a map has six prefixed keys per present eye with its values and nothing for an absent one exactly when it is the left eye's readings joined with the right eye's |
| FaceRecognition.ExtractEyeStatus | src/main/java/webcam/service/FaceRecognitionServiceImpl.java:187-212 | succeeds iff each present eye has all readings; the map is then the joined readings of the present eyes |
| FaceRecognition.ParseEyeStatus | src/main/java/webcam/service/FaceRecognitionServiceImpl.java:138-144 | no node leaves the data unchanged; otherwise `eyestatus` is `glass` of the extracted eye map |
| FaceRecognition.ParseSmile | src/main/java/webcam/service/FaceRecognitionServiceImpl.java:149-158 | no node leaves the data unchanged; otherwise `smile` is `smiling(value, threshold)` |
| FaceRecognition.ParseGender | src/main/java/webcam/service/FaceRecognitionServiceImpl.java:163-169 | no node leaves the data unchanged; otherwise `gender` is the gender label of the value |
| FaceRecognition.ParseAge | src/main/java/webcam/service/FaceRecognitionServiceImpl.java:174-179 | no node leaves the data unchanged; otherwise `age` is `asInt()` of the value, a 32-bit int: an integer token keeps its low 32 bits, and a fraction or exponent token is truncated toward zero and saturates at the int bounds |
| Json.AsInt | src/main/java/webcam/service/FaceRecognitionServiceImpl.java:177 | `asInt()` always yields a 32-bit int |
| Json.WrapToInt | src/main/java/webcam/service/FaceRecognitionServiceImpl.java:177 | the low 32 bits of an integer node: congruent to it modulo 2^32, within the int range, and the number itself when it fits |
| Json.DoubleToInt | src/main/java/webcam/service/FaceRecognitionServiceImpl.java:177 | Java's `(int)` of a double: truncation toward zero inside the int range, IntMax above it and IntMin below it |
| Json.AsIntWrapsWideInteger | src/main/java/webcam/service/FaceRecognitionServiceImpl.java:177 | an age of 3000000000 is put as -1294967296 |
| Json.AsIntSaturatesDouble | src/main/java/webcam/service/FaceRecognitionServiceImpl.java:177 | an age of 1e10 is put as 2147483647 |
| FaceRecognition.EntriesDetermineMap | src/main/java/webcam/service/FaceRecognitionServiceImpl.java:62-98 | two maps with the same face token whose keys are attribute keys and whose four attribute entries fit the same nodes are equal |
| FaceRecognition.AddAttributesDescribes | src/main/java/webcam/service/FaceRecognitionServiceImpl.java:74-87 | starting from the face token alone, the four parsers leave attribute keys only, keep the face token and give each attribute the entry its node calls for |
| FaceRecognition.ParseAttributes | src/main/java/webcam/service/FaceRecognitionServiceImpl.java:74-87 | the four parsers in order succeed iff every present node is readable, and then add the attributes' entries |
| FaceRecognition.DescribesUnique | src/main/java/webcam/service/FaceRecognitionServiceImpl.java:62-98 | the description of a reply fixes the attribute map |
| FaceRecognition.ParseApiResponse | src/main/java/webcam/service/FaceRecognitionServiceImpl.java:62-98 | succeeds iff the body parses and is readable; then the map is empty for a missing, non-array or empty `faces`; otherwise it has `faceToken` of the first face and one key per attribute node present, with the MapUtil labels (the gender label read the corrected way, see Findings); any failure is FacePlusPlusApiException("解析API响应失败") |
| FaceRecognition.DetectFaceAttributes | src/main/java/webcam/service/FaceRecognitionServiceImpl.java:46-59 | succeeds iff the call answers with a readable body, and then describes it; every failure is FacePlusPlusApiException("人脸检测失败") |
| DeepSeekPraise.BuildPrompt | src/main/java/webcam/service/impl/DeepSeekPraiseServiceImpl.java:70-95 | the appended text is the reference prompt: header, then the gender, age, smile and eyestatus lines for present keys in that order, then the requirements |
| DeepSeekPraise.LineAt | src/main/java/webcam/service/impl/DeepSeekPraiseServiceImpl.java:74-85 | a present key gives its caption, value and line ending; an absent key gives nothing |
| DeepSeekPraise.LinesUnfolded | src/main/java/webcam/service/impl/DeepSeekPraiseServiceImpl.java:74-85 | the lines are the four field lines in the fixed order |
| DeepSeekPraise.PromptWithoutAttributes | src/main/java/webcam/service/impl/DeepSeekPraiseServiceImpl.java:70-95 | with none of the four keys, the prompt is header plus requirements |
| DeepSeekPraise.PromptShowsAttribute | src/main/java/webcam/service/impl/DeepSeekPraiseServiceImpl.java:74-85 | a present key's line appears in the prompt |
| DeepSeekPraise.PromptIgnoresOtherKeys | src/main/java/webcam/service/impl/DeepSeekPraiseServiceImpl.java:74-85 | keys other than the four do not change the prompt |
| DeepSeekPraise.ExtractPraise | src/main/java/webcam/service/impl/DeepSeekPraiseServiceImpl.java:132-155 | present iff the body parses and has `choices[0].message.content`; then the trimmed content |
| DeepSeekPraise.FallbackPraise | src/main/java/webcam/service/impl/DeepSeekPraiseServiceImpl.java:157-168 | always one of the five fixed compliments, never empty |
| DeepSeekPraise.UsablePraise | src/main/java/webcam/service/impl/DeepSeekPraiseServiceImpl.java:54-59 | a usable praise is never empty or blank |
| DeepSeekPraise.GeneratePraise | src/main/java/webcam/service/impl/DeepSeekPraiseServiceImpl.java:43-68 | never empty; the API is called iff attributes are present and non-empty; otherwise a fallback; after a call the usable reply, or a fallback on failure or a blank reply |
| ResultController.Ppei | src/main/java/webcam/controller/ResultController.java:78-92 | the pairing is under female/ iff the subject is male (a chosen "male", or no choice and a detected 男性), and under male/ otherwise; it ends in `{n}.png` |
| ResultController.ChoiceOverridesDetection | src/main/java/webcam/controller/ResultController.java:79-84 | a chosen "male" or "female" decides the pairing whatever was detected |
| ResultController.PpeiDistinguishesDraws | src/main/java/webcam/controller/ResultController.java:78-92 | different photo numbers give different pairings |
| ResultController.Draw | src/main/java/webcam/controller/ResultController.java:78 | `random.nextInt(bound) + 1` lies in 1..bound |
| ResultController.ShownKeysAre | src/main/java/webcam/controller/ResultController.java:58-100 | the page shows the old model keys, the copied keys present in the message, `ppei` when gender is present, and the two descriptions |
| ResultController.ShownCopies | src/main/java/webcam/controller/ResultController.java:58-96 | each copied attribute the message has is shown as the text of the message's own value |
| ResultController.ShownPairing | src/main/java/webcam/controller/ResultController.java:70-93 | with a gender, `ppei` is the pairing of the user's choice and the detected gender for the photo draw |
| ResultController.ShownDescriptions | src/main/java/webcam/controller/ResultController.java:98-100 | `data_index` and `pdesc` are the descriptions of the two draws, never the default text |
| ResultController.ShownKeepsOthers | src/main/java/webcam/controller/ResultController.java:47-109 | every model entry outside the shown keys is left as it was |
| ResultController.ShowResult | src/main/java/webcam/controller/ResultController.java:47-109 | a missing, blank or unparsable message redirects to /index.html with the model untouched; otherwise the view is "result" and the model is the shown map |
| ResultController.CastToString | src/main/java/webcam/controller/ResultController.java:127-130 | the `(String)` cast fails exactly on a present non-null non-string value and is null exactly on a missing or null one |
| ResultController.ResultJsonKeepsBody | src/main/java/webcam/controller/ResultController.java:119-125 | every request entry other than `ppei`, `data_index`, `pdesc` and `error` is copied unchanged |
| ResultController.ResultJsonOnCastFailure | src/main/java/webcam/controller/ResultController.java:127-159 | a gender, or with a gender a user gender, that is not a string gives the request plus only `error` naming the ClassCastException |
| ResultController.ResultJsonOnSuccess | src/main/java/webcam/controller/ResultController.java:127-152 | otherwise the reply's keys are the request's plus the two descriptions, plus `ppei` exactly when the gender is a string; the descriptions are never the default text and `ppei` is the pairing |
| ResultController.GetResultJson | src/main/java/webcam/controller/ResultController.java:119-161 | the reply built step by step equals `ResultJson`, the function the three lemmas above describe |
| WebcamController.SavedFileName | src/main/java/webcam/controller/WebcamController.java:68 | the saved name is the UUID followed by ".jpeg" |
| WebcamController.ResponseMsg | src/main/java/webcam/controller/WebcamController.java:75-84 | the msg has every detected key plus `img`, which is the saved image's URL; never empty |
| WebcamController.SuccessReply | src/main/java/webcam/controller/WebcamController.java:89-110 | status 200 with the no-cache headers and the processing time; non-empty attributes give a timed success carrying them and the request id; empty ones give result "0", no msg and the NO_FACE_DETECTED code and detail |
| WebcamController.ProcessImage | src/main/java/webcam/controller/WebcamController.java:54-117 | invalid input is rethrown before any save; a failed save is rethrown without a write, as the decode error when the payload does not decode and the upload directory exists or the disk works, and otherwise as the "文件保存失败: " I/O error; after a save to `upload/{uuid}.jpeg`, a detector error is rethrown; otherwise a 200 success with the attributes plus `img`, the processing time, the request id and the no-cache headers |
| CartoonController.ResultData | src/main/java/webcam/controller/CartoonImageController.java:77-83 | the data has exactly the five keys, null for absent fields, and the file size as a JSON number of that value |
| CartoonController.FailureBody | src/main/java/webcam/controller/CartoonImageController.java:58-60 | a failure body has exactly `success` false, `error` and `requestId` |
| CartoonController.SuccessBody | src/main/java/webcam/controller/CartoonImageController.java:76-84 | a success body has exactly `success` true, `data` and `requestId` |
| CartoonController.PutFailure | src/main/java/webcam/controller/CartoonImageController.java:58-60 | the three puts build the failure body |
| CartoonController.Answer | src/main/java/webcam/controller/CartoonImageController.java:65-97 | an exception gives 500 with the error prefix and its message; null gives 500 with 生成卡通图片失败; a result gives 200 with its data |
| CartoonController.RepliesCarryRequestId | src/main/java/webcam/controller/CartoonImageController.java:57-97 | every reply carries the request id, `success` is true exactly for a 200, and a 200 happens exactly for a result |
| CartoonController.GenerateCartoonImage | src/main/java/webcam/controller/CartoonImageController.java:48-98 | a missing or empty URL gives 400 without calling the service; otherwise the reply answers the service's outcome |
| CartoonController.GenerateCartoonImageFromFile | src/main/java/webcam/controller/CartoonImageController.java:108-167 | an empty path gives 400; a nonexistent path gives 400 "指定的文件不存在: " with the path, without calling the service; otherwise the reply answers the service's outcome |
| ApiResponses.ElapsedSince | src/main/java/webcam/controller/ApiResponse.java:79-81 | a processing time exists iff a start time does, and then start plus time is the timestamp |
| ApiResponses.ApiResponse.constructor | src/main/java/webcam/controller/ApiResponse.java:56-58 | only the timestamp is set |
| ApiResponses.ApiResponse.Success | src/main/java/webcam/controller/ApiResponse.java:65-69 | result "1", msg the data, error fields absent |
| ApiResponses.ApiResponse.Timed | src/main/java/webcam/controller/ApiResponse.java:77-82 | as Success, plus the milliseconds from the start time to the timestamp when a start time is given |
| ApiResponses.ApiResponse.Failure | src/main/java/webcam/controller/ApiResponse.java:90-96 | result "0", msg absent, both error fields set |
| ApiResponses.ApiResponse.SuccessOf | src/main/java/webcam/controller/ApiResponse.java:104-106 | a fresh success response |
| ApiResponses.ApiResponse.TimedSuccessOf | src/main/java/webcam/controller/ApiResponse.java:115-117 | a fresh timed success response |
| ApiResponses.ApiResponse.ErrorOf | src/main/java/webcam/controller/ApiResponse.java:126-128 | a fresh failure with both error fields |
| ApiResponses.ApiResponse.ErrorMessageOf | src/main/java/webcam/controller/ApiResponse.java:137-142 | result "0", msg the message, error fields absent |
| ApiResponses.ApiResponse.SetResult | src/main/java/webcam/controller/ApiResponse.java:150-152 | changes only `result` |
| ApiResponses.ApiResponse.SetMsg | src/main/java/webcam/controller/ApiResponse.java:158-160 | changes only `msg` |
| ApiResponses.ApiResponse.SetTimestamp | src/main/java/webcam/controller/ApiResponse.java:166-168 | changes only `timestamp` |
| ApiResponses.ApiResponse.SetProcessingTime | src/main/java/webcam/controller/ApiResponse.java:174-176 | changes only `processingTime` |
| ApiResponses.ApiResponse.SetErrorCode | src/main/java/webcam/controller/ApiResponse.java:182-184 | changes only `errorCode` |
| ApiResponses.ApiResponse.SetErrorDetail | src/main/java/webcam/controller/ApiResponse.java:190-192 | changes only `errorDetail` |
| ApiResponses.ApiResponse.SetRequestId | src/main/java/webcam/controller/ApiResponse.java:198-200 | changes only `requestId` |
| ExceptionHandler.Classify | src/main/java/webcam/exception/GlobalExceptionHandler.java:37-214 | 400 exactly for image-processing, upload-size and illegal-argument errors; 503 exactly for Face++ errors; every other kind, BailianApiException included, is 500 INTERNAL_SERVER_ERROR |
| ExceptionHandler.CodeDeterminesHandler | src/main/java/webcam/exception/GlobalExceptionHandler.java:43-213 | the error code alone tells the status and which handler ran |
| ExceptionHandler.Detail | src/main/java/webcam/exception/GlobalExceptionHandler.java:43-200 | the specific handlers end the detail with the exception's message; an oversized upload gets its fixed text; the catch-all gets a fixed text ending in the request id |
| ExceptionHandler.MsgError | src/main/java/webcam/exception/GlobalExceptionHandler.java:51-53 | `msg.error` is the detail for the specific handlers and "系统错误，请稍后重试" for the catch-all |
| ExceptionHandler.CatchAllHidesMessage | src/main/java/webcam/exception/GlobalExceptionHandler.java:198-208 | the catch-all reply does not depend on the exception's message |
| ExceptionHandler.Handle | src/main/java/webcam/exception/GlobalExceptionHandler.java:37-214 | a fresh failure body with the code, detail, request id, timestamp and `{"error": …}` msg; the status of the kind; headers X-Request-Id and X-Error-Code equal to the body's request id and code |

## Left out

- Transport is not modelled: the RestTemplate exchanges, the HttpURLConnection download and its byte-copy loop, and the request bodies and headers sent to DashScope, Face++ and DeepSeek. Each call is an oracle from the request's decisive part to a reply.
- `Thread.sleep` between polls and the InterruptedException path are not modelled; `styleIndex` and the other request parameters are not modelled.
- The AWS SDK (`S3Client`, `S3Presigner`), ZXing and `QrCodeServiceImpl` are oracles.
- The QR service's own prefixing is folded into `CartoonService.Enrichment`.
- Jackson parsing is an oracle that yields the parse of each body. `asText`, `asDouble` and `asInt` are modelled on the node kinds the code reads. A numeric string read as a number is taken as 0. A number's `asText` is its token text, which is Jackson's text for integer tokens as the Face++ and Bailian replies write them; a fraction or exponent token would print as `Double.toString` of its value ("25.50" as "25.5"), which is not modelled.
- Json.DoubleToInt: truncates the exact decimal value of a fraction or exponent token rather than its nearest double, because the model has no IEEE 754 rounding; a token within double precision of an integer (such as 0.99999999999999999, which Java reads as 1.0) reads one nearer zero.
- MapUtil.Smiling: `threshold + 30` and the compared values are exact reals, not doubles, and so are the values `Json.AsReal` reads; MapUtil.SmilingBands states the bands over those reals. Java rounds the sum, so near the upper band edge the labels can differ: `smiling(30.577, 0.577)` is 笑的灿烂 in Java, because 0.577 + 30 rounds below the parsed 30.577, but 微笑 here. MapUtil.Glass's comparison with 90 differs only for tokens with more than about 16 significant digits.
- ImageStorage.ValidateImageData: the 100-character minimum counts Unicode characters, while Java's `length()` counts UTF-16 code units, so a payload with characters outside the Basic Multilingual Plane can be long enough in Java and too short here. Base64 payloads are ASCII, where the two counts agree.
- DeepSeekPraise.Rendered: an array or object attribute value is rendered as "", while Java appends its JSON text; the attribute map only holds strings and numbers.
- Java exception messages from library code are fixed placeholder strings, e.g. the Base64 decoder's and the I/O layer's.
- `toLowerCase` and `equalsIgnoreCase` are modelled for ASCII letters only.
- `Paths.get` rejecting a malformed path (InvalidPathException) is not modelled.
- `LocalDateTime.now()` is an input in milliseconds.
- `ApiResponse`'s JSON serialisation (`NON_NULL`, date format) is not modelled.
- `msg` is held as the JSON it is written as.
- Getters are read as fields; aliasing between the caller and the returned objects is not modelled.
- The `CartoonImageService` interface declares `String` results. The model follows the implementation and the controller, which use `CartoonImageResult`.
- `UUID.randomUUID()`, `SecureRandom`, `Random` and `Math.random()` are inputs. `nextInt(k)` is a draw modulo k.
- The HTTP oracles of the cartoon service (`post`, `poll`) may return a 4xx or 5xx `Reply`. The real RestTemplate keeps Spring's default error handler, which throws for those statuses, so in the application such a POST fails as a thrown call and such a poll aborts polling. The model's "status other than 200" and "keep polling" paths are therefore reachable in the application only for 1xx to 3xx statuses.
- CartoonService.StatusText: follows the Spring 6 `HttpStatus` names for 1xx to 3xx (103 is EARLY_HINTS; Spring 5 calls it CHECKPOINT and throws for a status without a constant). Names of 4xx and 5xx statuses are not tabulated, because those statuses throw before the message is built.
- CartoonController.GenerateCartoonImage: its contract relates the reply to the service's outcome. That outcome is exactly what `CartoonService.GenerateCartoonImageFromUrl` returns, but the controller's own contract does not restate the service's properties.
- CartoonController.GenerateCartoonImageFromFile: the same applies, for `CartoonService.GenerateCartoonImage`.
- WebcamController.ProcessImage: the detector is the `FaceRecognitionService` interface, taken as an oracle that may return null. The Face++ implementation is modelled separately by `FaceRecognition.DetectFaceAttributes`.
- WebcamController.ProcessImage: the NO_FACE_DETECTED branch cannot be reached, because `img` is always put into the attributes first. `WebcamController.SuccessReply` models that branch's setters, and `ResponseMsg` shows that the attributes are never empty.
- FaceRecognition.ParseGender: uses the corrected gender reading (see Findings), not `MapUtil.gender` as written; FaceRecognition.ParseAttributes, FaceRecognition.ParseApiResponse and FaceRecognition.DetectFaceAttributes inherit that reading through it.
- ExceptionHandler.Handle: Spring's choice of handler by exception class is one dispatch over the `Exception` datatype.
- ExceptionHandler.Handle: the request id is an input, as is `created`, the clock reading taken inside `ApiResponse.error`. Logging is not modelled.
- Spring wiring, the configuration classes other than `CelebrityProperties` (their defaults are constants), `ErrorResponse`, the front-end scripts and logging are outside the model.
- A `null` `base64Data` passed to `uploadFromBase64` is not modelled. Its NullPointerException would surface as FileStorageException; the model's argument is a non-null string.

## Findings

| source | as written | input that shows it | evidently intended | confidence | as-written member | corrected member |
|---|---|---|---|---|---|---|
| src/main/java/webcam/MapUtil.java:83-86 | `gender` tests for "male" before "female". Every lower-cased "female" contains "male", so female input is labelled 男性 | `gender("Female")` returns 男性 | "Female" maps to 女性, as the method's comment and its unit test expect | high; not executed | MapUtil.GenderFemaleCounterexample | MapUtil.GenderIntendedFemale |
