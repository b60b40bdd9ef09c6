/**
 * The page store of gowiki/wiki.go: one file "pages/<title>" per page, whose
 * contents are the page body. The directory is modelled as a map from title to
 * body bytes; Page.save, loadPage and os.Remove become Save, Load and Remove.
 */
module Pages {
  import opened Results

  newtype byte = b: int | 0 <= b < 256

  /** The directory "pages/": file name (the title) to file contents. */
  type Directory = map<string, seq<byte>>

  /** A page: its title is also its file name, its body the raw file contents. */
  datatype Page = Page(title: string, body: seq<byte>)

  /** Why a page could not be read: the file does not exist. */
  datatype LoadError = NoSuchFile

  /** An I/O error from writing or removing a file. */
  datatype IoError = WriteFailed | RemoveFailed

  /** What reading "pages/<title>" yields. */
  function Lookup(dir: Directory, title: string): (r: Result<Page, LoadError>)
    ensures r.Success? <==> title in dir
    ensures r.Success? ==> r.value.title == title && r.value.body == dir[title]
  {
    if title in dir then Success(Page(title, dir[title])) else Failure(NoSuchFile)
  }

  /** The directory after the page's file is written: created or fully overwritten. */
  function Stored(dir: Directory, p: Page): (r: Directory)
    ensures p.title in r && r[p.title] == p.body
    ensures forall k :: k != p.title ==> (k in r <==> k in dir)
    ensures forall k :: k != p.title && k in dir ==> r[k] == dir[k]
  {
    dir[p.title := p.body]
  }

  /** The directory after the file named title is removed (no change if it is absent). */
  function Removed(dir: Directory, title: string): (r: Directory)
    ensures title !in r
    ensures forall k :: k != title ==> (k in r <==> k in dir)
    ensures forall k :: k in r ==> r[k] == dir[k]
  {
    dir - {title}
  }

  /** The pages directory on disk, updated in place by the handlers. */
  class PageStore {
    var pages: Directory

    /** A store over the pages already present on disk. */
    constructor (existing: Directory)
      ensures pages == existing
    {
      pages := existing;
    }

    /**
     * Page.save: write the body to the title's file. Whether the write succeeds
     * is decided by the file system and is given as writeOk; a failed write
     * leaves the directory as it was and is reported as an error.
     */
    method Save(p: Page, writeOk: bool) returns (err: Option<IoError>)
      modifies this
      ensures err.None? <==> writeOk
      ensures pages == if writeOk then Stored(old(pages), p) else old(pages)
    {
      if writeOk {
        pages := Stored(pages, p);
        err := None;
      } else {
        err := Some(WriteFailed);
      }
    }

    /** loadPage: read the title's file; fails exactly when there is no such file. */
    method Load(title: string) returns (r: Result<Page, LoadError>)
      ensures r == Lookup(pages, title)
    {
      if title in pages {
        r := Success(Page(title, pages[title]));
      } else {
        r := Failure(NoSuchFile);
      }
    }

    /** os.Remove of the title's file; reports an error when the file does not exist. */
    method Remove(title: string) returns (err: Option<IoError>)
      modifies this
      ensures err.Some? <==> title !in old(pages)
      ensures pages == Removed(old(pages), title)
    {
      err := if title in pages then None else Some(RemoveFailed);
      pages := Removed(pages, title);
    }
  }
}
