/** `WindowManager` and `CodeWindow.exit` (gpylint/windows.py): the
    registry of open code windows, at most one per file path. The singleton
    is the one `WindowManager` object the callers share. */
module Windows {
  import opened PyRuntime

  /** A source code window, for one file. */
  class CodeWindow {
    const filename: string
    const filepath: string

    constructor(filename: string, filepath: string)
      ensures this.filename == filename && this.filepath == filepath
    {
      this.filename := filename;
      this.filepath := filepath;
    }

    /** `exit`: the window takes itself off the registry. */
    method Exit(manager: WindowManager) returns (err: Option<PyError>)
      modifies manager
      requires manager.Valid()
      ensures manager.Valid()
      ensures old(filepath in manager.windows) ==> err == None && manager.windows == old(manager.windows) - {filepath}
      ensures old(filepath !in manager.windows) ==> err == Some(KeyError) && manager.windows == old(manager.windows)
    {
      err := manager.Unregister(filepath);
    }
  }

  /** The registry: `_filepaths`, from a file path to its window. */
  class WindowManager {
    var windows: map<string, CodeWindow>

    /** Every window is registered under its own file path. */
    ghost predicate Valid()
      reads this
    {
      forall p | p in windows :: windows[p].filepath == p
    }

    constructor()
      ensures Valid() && windows == map[]
    {
      windows := map[];
    }

    /** `get_window(filename, filepath)`: the registered window, or a new
        one registered under the path. */
    method GetWindow(filename: string, filepath: string) returns (w: CodeWindow)
      modifies this
      requires Valid()
      ensures Valid() && w.filepath == filepath
      ensures old(filepath in windows) ==> w == old(windows[filepath]) && windows == old(windows)
      ensures old(filepath !in windows) ==> fresh(w) && w.filename == filename && windows == old(windows)[filepath := w]
    {
      if filepath !in windows {
        var created := new CodeWindow(filename, filepath);
        windows := windows[filepath := created];
      }
      w := windows[filepath];
    }

    /** `unregister(filepath)`: `del`, a KeyError for a path not registered. */
    method Unregister(filepath: string) returns (err: Option<PyError>)
      modifies this
      requires Valid()
      ensures Valid()
      ensures old(filepath in windows) ==> err == None && windows == old(windows) - {filepath}
      ensures old(filepath !in windows) ==> err == Some(KeyError) && windows == old(windows)
    {
      if filepath !in windows {
        return Some(KeyError);
      }
      windows := windows - {filepath};
      return None;
    }
  }

  /** No window is registered twice: distinct paths hold distinct windows. */
  lemma OneWindowPerPath(manager: WindowManager, p: string, q: string)
    requires manager.Valid() && p in manager.windows && q in manager.windows && p != q
    ensures manager.windows[p] != manager.windows[q]
  {
    assert manager.windows[p].filepath == p;
  }
}
