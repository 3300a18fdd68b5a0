/**
 * The uploaded-file handle (werkzeug's `FileStorage`) as far as the store uses
 * it: its declared file name, `save(dst)` and `close()`. The two calls are kept
 * as an event log so that their order, and whether they happen, can be stated.
 */
module Uploads {
  import opened Wrappers
  import opened OsModel

  datatype Event = SaveCalled(path: string) | CloseCalled

  class Upload {
    const filename: string
    var events: seq<Event>

    constructor(filename: string)
      ensures this.filename == filename && events == []
    {
      this.filename := filename;
      events := [];
    }

    /** `file.save(path)`: writes the upload's bytes to `path`; `fault` is a write error the OS may report. */
    method SaveTo(path: string, fs: FileSystem, fault: Option<int>) returns (err: Option<int>)
      modifies this, fs
      ensures events == old(events) + [SaveCalled(path)]
      ensures (err, fs.nodes) == WriteResult(old(fs.nodes), path, fault)
    {
      events := events + [SaveCalled(path)];
      var r := WriteResult(fs.nodes, path, fault);
      err, fs.nodes := r.0, r.1;
    }

    /** `file.close()`. */
    method Close()
      modifies this
      ensures events == old(events) + [CloseCalled]
    {
      events := events + [CloseCalled];
    }
  }
}
