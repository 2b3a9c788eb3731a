/**
 * `DataFileHandler` of RLDependencies/DataFileHandler.py: a table from file
 * names to open append-mode file handles, used to save experiment data as it
 * arrives. Handles are numbered; what the handler does to the file system is
 * recorded in a ghost log of events.
 */
module FileHandles {
  import opened Outcomes

  /** The `ValueError` raised for a name that has no open handle. */
  datatype HandleError = NotOpen(name: string)

  /** An effect on the file system. */
  datatype FileEvent =
    | Opened(handle: nat, name: string)  // `open(fileName, 'ab')`
    | Wrote(handle: nat, data: seq<real>) // `seek(0, 2)` then `np.save(handle, data)`
    | Closed(handle: nat)                // `handle.close()`

  /** The events of closing the handles `hs`, in order. */
  function Closings(hs: seq<nat>): (events: seq<FileEvent>)
  {
    seq(|hs|, i requires 0 <= i < |hs| => Closed(hs[i]))
  }

  class DataFileHandler {
    /** `self.fileHandles`: file name to handle. */
    var fileHandles: map<string, nat>
    /** The number the next `open` returns. */
    var nextHandle: nat
    /** Handles opened and not yet closed, whether or not the table still names them. */
    ghost var openHandles: set<nat>
    ghost var log: seq<FileEvent>

    /**
     * Every handle in the table is open and named by one entry only (each
     * `open` issues a new one), and every open handle was issued.
     */
    ghost predicate Valid()
      reads this
    {
      (forall name :: name in fileHandles ==> fileHandles[name] in openHandles)
      && (forall a, b :: a in fileHandles && b in fileHandles && a != b ==> fileHandles[a] != fileHandles[b])
      && (forall h :: h in openHandles ==> h < nextHandle)
    }

    /** `DataFileHandler()`: an empty table. */
    constructor ()
      ensures Valid()
      ensures fileHandles == map[] && openHandles == {} && log == []
    {
      fileHandles := map[];
      nextHandle := 0;
      openHandles := {};
      log := [];
    }

    /**
     * `openFile(fileName)`: a fresh handle for the name. A handle the name had
     * before is dropped from the table but stays open.
     */
    method OpenFile(name: string)
      requires Valid()
      modifies this
      ensures Valid()
      ensures name in fileHandles && fileHandles == old(fileHandles)[name := fileHandles[name]]
      ensures fileHandles[name] !in old(openHandles)
      ensures openHandles == old(openHandles) + {fileHandles[name]}
      ensures log == old(log) + [Opened(fileHandles[name], name)]
    {
      var h := nextHandle;
      nextHandle := nextHandle + 1;
      fileHandles := fileHandles[name := h];
      openHandles := openHandles + {h};
      log := log + [Opened(h, name)];
    }

    /**
     * `appendData(fileName, data)`: one write to the name's own handle, or
     * `ValueError` with nothing changed when the name is not open.
     */
    method AppendData(name: string, data: seq<real>) returns (r: Result<(), HandleError>)
      requires Valid()
      modifies this
      ensures Valid()
      ensures fileHandles == old(fileHandles) && openHandles == old(openHandles) && nextHandle == old(nextHandle)
      ensures name !in fileHandles ==> r == Err(NotOpen(name)) && log == old(log)
      ensures name in fileHandles ==> r == Ok(()) && log == old(log) + [Wrote(fileHandles[name], data)]
    {
      if name in fileHandles {
        log := log + [Wrote(fileHandles[name], data)];
        return Ok(());
      } else {
        return Err(NotOpen(name));
      }
    }

    /**
     * `closeFile(fileName)`: closes the name's handle and removes exactly that
     * entry, or raises `ValueError` with nothing changed.
     */
    method CloseFile(name: string) returns (r: Result<(), HandleError>)
      requires Valid()
      modifies this
      ensures Valid()
      ensures nextHandle == old(nextHandle)
      ensures name !in old(fileHandles) ==>
        r == Err(NotOpen(name)) && fileHandles == old(fileHandles)
        && openHandles == old(openHandles) && log == old(log)
      ensures name in old(fileHandles) ==>
        r == Ok(()) && fileHandles == old(fileHandles) - {name}
        && openHandles == old(openHandles) - {old(fileHandles)[name]}
        && log == old(log) + [Closed(old(fileHandles)[name])]
    {
      if name in fileHandles {
        var h := fileHandles[name];
        log := log + [Closed(h)];
        openHandles := openHandles - {h};
        fileHandles := fileHandles - {name};
        return Ok(());
      } else {
        return Err(NotOpen(name));
      }
    }

    /**
     * `closeAllFiles()`: closes every handle the table names, once each, in
     * the order `order`, then empties the table. Handles dropped by a re-open
     * stay open.
     */
    method CloseAllFiles() returns (ghost order: seq<nat>)
      requires Valid()
      modifies this
      ensures Valid()
      ensures fileHandles == map[] && nextHandle == old(nextHandle)
      ensures openHandles == old(openHandles) - old(fileHandles).Values
      ensures log == old(log) + Closings(order)
      ensures |order| == |old(fileHandles).Values|
      ensures forall h :: h in order <==> h in old(fileHandles).Values
    {
      var remaining := fileHandles.Values;
      ghost var all := remaining;
      ghost var closed: set<nat> := {};
      order := [];
      while remaining != {}
        invariant remaining !! closed && remaining + closed == all
        invariant |order| == |closed| && forall h :: h in order <==> h in closed
        decreases |remaining|
      {
        var h :| h in remaining;
        assert |closed + {h}| == |closed| + 1;
        order := order + [h];
        remaining := remaining - {h};
        closed := closed + {h};
      }
      openHandles := openHandles - all;
      log := log + Closings(order);
      fileHandles := map[];
    }
  }
}
