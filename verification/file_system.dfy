/** The part of `java.nio.file.Files` the app uses, over an in-memory disk. Whether the
    operating system refuses writes is part of the disk's state (`failing`), since the
    app cannot influence it. Paths are strings in the form `java.nio.file.Path` prints. */
module FileSystem {
  import opened Support
  import opened Base64

  /** The text of the I/O error a failing disk reports. */
  const IoErrorMessage: string := "I/O error"

  class Disk {
    var dirs: set<string>
    var files: map<string, seq<byte>>
    /** Every write and directory creation throws an IOException. */
    const failing: bool

    constructor (dirs: set<string>, files: map<string, seq<byte>>, failing: bool)
      ensures this.dirs == dirs && this.files == files && this.failing == failing
    {
      this.dirs := dirs;
      this.files := files;
      this.failing := failing;
    }

    /** `Files.exists(p)` */
    predicate Exists(p: string)
      reads this
    {
      p in dirs || p in files
    }

    /** `Files.createDirectories(p)` */
    method CreateDirectories(p: string) returns (r: Result<(), string>)
      modifies this`dirs
      ensures failing ==> r == Err(IoErrorMessage) && dirs == old(dirs)
      ensures !failing ==> r == Ok(()) && dirs == old(dirs) + {p}
    {
      if failing {
        r := Err(IoErrorMessage);
      } else {
        dirs := dirs + {p};
        r := Ok(());
      }
    }

    /** `Files.write(p, data)`: creates or replaces the file. */
    method Write(p: string, data: seq<byte>) returns (r: Result<(), string>)
      modifies this`files
      ensures failing ==> r == Err(IoErrorMessage) && files == old(files)
      ensures !failing ==> r == Ok(()) && files == old(files)[p := data]
    {
      if failing {
        r := Err(IoErrorMessage);
      } else {
        files := files[p := data];
        r := Ok(());
      }
    }

    /** `Files.readAllBytes(p)`: the file's bytes, or the NoSuchFileException message
        (the path itself) when there is no such file. */
    function ReadAllBytes(p: string): (r: Result<seq<byte>, string>)
      reads this
      ensures r.Ok? <==> p in files
    {
      if p in files then Ok(files[p]) else Err(p)
    }
  }

  /** `Paths.get(dir).resolve(name)`: an absolute `name` replaces the directory, an empty
      one leaves it, anything else is joined to it with "/". */
  function Resolve(dir: string, name: string): (r: string)
    ensures name != [] && name[0] != '/' ==> r == dir + "/" + name
  {
    if name == [] then dir
    else if name[0] == '/' then name
    else dir + "/" + name
  }
}
