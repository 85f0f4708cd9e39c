/** The filesystem the transaction writes into and deletes from, reduced to
    the set of files that exist and the files whose removal fails. */
module Files {
  import opened Base

  /** What `os.Remove(p)` does to the set of existing files: it fails with
      NotExist when there is no file at `p`, fails with the recorded error
      when `p` cannot be removed, and otherwise deletes exactly `p`. */
  function RemoveOne(files: set<Path>, faulty: map<Path, Error>, p: Path): Result<set<Path>> {
    if p !in files then Failure(NotExist(p))
    else if p in faulty then Failure(faulty[p])
    else Success(files - {p})
  }

  class FileSystem {
    /** The files that exist. */
    var files: set<Path>
    /** Files whose removal fails (permissions, I/O), with the error it fails with. */
    const faulty: map<Path, Error>

    constructor (files: set<Path>, faulty: map<Path, Error>)
      ensures this.files == files && this.faulty == faulty
    {
      this.files := files;
      this.faulty := faulty;
    }

    /** os.Remove */
    method Remove(p: Path) returns (err: Option<Error>)
      modifies this
      ensures match RemoveOne(old(files), faulty, p)
              case Success(rest) => err == None && files == rest
              case Failure(e) => err == Some(e) && files == old(files)
    {
      if p !in files {
        err := Some(NotExist(p));
      } else if p in faulty {
        err := Some(faulty[p]);
      } else {
        files := files - {p};
        err := None;
      }
    }

    /** A successful write of `p` by the file saver. */
    method Write(p: Path)
      modifies this
      ensures files == old(files) + {p}
    {
      files := files + {p};
    }
  }
}
