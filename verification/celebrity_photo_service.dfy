/** `webcam.service.impl.CelebrityPhotoServiceImpl`: a random photo from the pool chosen
    by gender. The random source is an input: `draw` is the raw value that
    `SecureRandom.nextInt(size)` reduces into range. */
module CelebrityPhotoService {
  import opened Support
  import opened CelebrityConfig

  /** `"female".equalsIgnoreCase(gender)`: only "female" in some letter case selects the
      female pool; null and every other value, "女性" included, select the male pool. */
  predicate SelectsFemalePool(gender: Option<string>)
  {
    gender.Some? && EqualsIgnoreCase("female", gender.value)
  }

  /** The pool `getRandomCelebrityPhoto` reads for a gender. */
  function PoolFor(props: CelebrityProperties, gender: Option<string>): Option<seq<string>>
    reads props
  {
    if SelectsFemalePool(gender) then props.femalePhotos else props.malePhotos
  }

  /** `getRandomCelebrityPhoto(gender)`: null for a null or empty pool, otherwise the
      pool's element at a random index. Only reads the pools. */
  function RandomCelebrityPhoto(props: CelebrityProperties, gender: Option<string>, draw: nat): (r: Option<string>)
    reads props
    ensures var pool := PoolFor(props, gender);
            (r.None? <==> pool.None? || |pool.value| == 0) &&
            (r.Some? ==> r.value in pool.value) &&
            (r.Some? && |pool.value| == 1 ==> r.value == pool.value[0])
  {
    var photoList := if SelectsFemalePool(gender) then props.femalePhotos else props.malePhotos;
    if photoList.None? || |photoList.value| == 0 then None
    else Some(photoList.value[NextInt(draw, |photoList.value|)])
  }

  /** Which values select which pool. */
  lemma PoolChoice()
    ensures SelectsFemalePool(Some("female")) && SelectsFemalePool(Some("FEMALE")) && SelectsFemalePool(Some("Female"))
    ensures !SelectsFemalePool(None) && !SelectsFemalePool(Some("MALE")) && !SelectsFemalePool(Some("女性"))
  {
    assert ToLower("female") == "female" && ToLower("FEMALE") == "female" && ToLower("Female") == "female";
    assert |ToLower("MALE")| == 4 && |ToLower("女性")| == 2;
  }

  /** With the pools as constructed, the photo is numbered draw mod 10 plus one, taken
      from the female directory for "female" and the male directory otherwise. */
  lemma DefaultSelection(props: CelebrityProperties, gender: Option<string>, draw: nat)
    requires props.malePhotos == Some(NumberedPhotos("male"))
    requires props.femalePhotos == Some(NumberedPhotos("female"))
    ensures RandomCelebrityPhoto(props, gender, draw) ==
              Some(PhotoPath(if SelectsFemalePool(gender) then "female" else "male", draw % 10 + 1))
  {
  }
}
