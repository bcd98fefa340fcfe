/**
 * The files a handler builds from a message's attachments, and their
 * release. A handler downloads the attachments one by one, stops at the
 * first download that raises, and closes every file it holds on its way
 * out, whatever path it leaves by.
 */
module Files {
  import opened Transport

  /** How many leading attachments download before the first one that
      raises (all of them when none does). */
  function Downloaded(atts: seq<Attachment>): (n: nat)
    ensures n <= |atts|
    ensures forall i :: 0 <= i < n ==> atts[i].download.Ok?
    ensures n < |atts| ==> atts[n].download.Fail?
  {
    if atts == [] then 0
    else if atts[0].download.Fail? then 0
    else 1 + Downloaded(atts[1..])
  }

  /** The exception that escapes the download loop, if any. */
  function DownloadFailure(atts: seq<Attachment>): (f: Option<Failure>)
    ensures f.None? <==> forall i :: 0 <= i < |atts| ==> atts[i].download.Ok?
    ensures f.Some? ==> Downloaded(atts) < |atts| && atts[Downloaded(atts)].download == Fail(f.value)
  {
    var n := Downloaded(atts);
    if n < |atts| then Some(atts[n].download.failure) else None
  }

  /** The handles given to `n` files opened in a row, starting at `first`. */
  function Handles(first: nat, n: nat): (hs: seq<nat>)
    ensures |hs| == n
    ensures forall i :: 0 <= i < n ==> hs[i] == first + i
  {
    seq(n, i requires 0 <= i < n => first + i)
  }

  /** The open files of the process: a handle stays in `open` from the
      download that creates the file until the file is closed. */
  class FileTable {
    var open: set<nat>
    var next: nat

    ghost predicate Valid()
      reads this
    {
      forall h :: h in open ==> h < next
    }

    constructor ()
      ensures Valid() && open == {} && next == 0
    {
      open, next := {}, 0;
    }

    /** The loop `for attachment in message.attachments:
        files.append(await attachment.to_file())`: opens one file per
        attachment and stops at the first download that raises, reporting
        its exception; the files already opened stay open and are returned. */
    method OpenAll(atts: seq<Attachment>) returns (handles: seq<nat>, failure: Option<Failure>)
      requires Valid()
      modifies this
      ensures Valid()
      ensures handles == Handles(old(next), Downloaded(atts))
      ensures failure == DownloadFailure(atts)
      ensures next == old(next) + |handles|
      ensures open == old(open) + set h | h in handles
    {
      handles, failure := [], None;
      var i := 0;
      while i < |atts|
        invariant 0 <= i <= |atts|
        invariant forall j :: 0 <= j < i ==> atts[j].download.Ok?
        invariant handles == Handles(old(next), i)
        invariant next == old(next) + i
        invariant open == old(open) + set h | h in handles
        invariant Valid()
      {
        if atts[i].download.Fail? {
          failure := Some(atts[i].download.failure);
          return;
        }
        handles := handles + [next];
        open := open + {next};
        next := next + 1;
        i := i + 1;
      }
    }

    /** The `finally` loop: closes every file in `handles`. A `close` that
        raises is swallowed by handlers.py and bot.py, and the file counts
        as released. */
    method CloseAll(handles: seq<nat>)
      requires Valid()
      modifies this
      ensures Valid() && next == old(next)
      ensures open == old(open) - set h | h in handles
    {
      var i := 0;
      while i < |handles|
        invariant 0 <= i <= |handles|
        invariant Valid() && next == old(next)
        invariant open == old(open) - set h | h in handles[..i]
      {
        assert handles[..i + 1] == handles[..i] + [handles[i]];
        open := open - {handles[i]};
        i := i + 1;
      }
      assert handles[..i] == handles;
    }
  }
}
