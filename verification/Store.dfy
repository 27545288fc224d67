/** The resource on disk: a target file and one shared staging slot beside it. */
module Stores {
  import opened Types

  /** `None` is a file that does not exist. */
  datatype Store = Store(target: Option<Content>, tmp: Option<Content>)

  /** Reading a missing file yields the empty string. */
  function ReadBack(file: Option<Content>): Content {
    match file
    case Some(content) => content
    case None => ""
  }

  /** Staging always goes to the same slot, so it overwrites whatever is there. */
  function Prepared(c: Setup, s: Store, content: Content): (Store, bool) {
    (s.(tmp := Some(content)), c.failAt != Some(AfterTempWritten))
  }

  function Discarded(s: Store): Store {
    s.(tmp := None)
  }

  /** The rename: it fails when told to, and when there is nothing staged. */
  function Published(c: Setup, s: Store): (Store, bool) {
    if c.failAt == Some(DuringRename) || s.tmp.None? then (s, false)
    else (Store(s.tmp, None), true)
  }

  class FileStore {
    const setup: Setup
    var target: Option<Content>
    var tmp: Option<Content>

    function State(): Store
      reads this
    {
      Store(target, tmp)
    }

    constructor (setup: Setup, target: Option<Content>, leftover: Option<Content>)
      ensures this.setup == setup && State() == Store(target, leftover)
    {
      this.setup := setup;
      this.target := target;
      this.tmp := leftover;
    }

    method Read() returns (content: Content)
      ensures content == ReadBack(target)
      ensures target == None ==> content == ""
      ensures target.Some? ==> content == target.value
    {
      if target.Some? {
        content := target.value;
      } else {
        content := "";
      }
    }

    method Prepare(content: Content) returns (ok: bool)
      modifies this`tmp
      ensures (State(), ok) == Prepared(setup, old(State()), content)
    {
      tmp := Some(content);
      if setup.failAt == Some(AfterTempWritten) {
        return false;
      }
      return true;
    }

    method Discard()
      modifies this`tmp
      ensures State() == Discarded(old(State()))
    {
      tmp := None;
    }

    method Publish() returns (ok: bool)
      modifies this`target, this`tmp
      ensures (State(), ok) == Published(setup, old(State()))
    {
      if setup.failAt == Some(DuringRename) {
        return false;
      }
      if tmp == None {
        return false;
      }
      target := tmp;
      tmp := None;
      return true;
    }
  }
}
