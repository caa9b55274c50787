/**
 * The part of the file system the downloaders write: files by path. Folder
 * creation (`os.makedirs`) always succeeds here and is not recorded.
 */
module Disk {
  import Wrappers

  newtype byte = x: int | 0 <= x < 256

  /** The bytes of a streamed body, chunk after chunk, in the order received. */
  function Concat(chunks: seq<seq<byte>>): (r: seq<byte>)
    ensures chunks == [] ==> r == []
  {
    if chunks == [] then [] else Concat(chunks[..|chunks| - 1]) + chunks[|chunks| - 1]
  }

  lemma ConcatStep(chunks: seq<seq<byte>>, i: nat)
    requires i < |chunks|
    ensures Concat(chunks[..i + 1]) == Concat(chunks[..i]) + chunks[i]
  {
    assert chunks[..i + 1][..i] == chunks[..i];
  }

  /**
   * A cancellation from another thread, given as the number of the cancel check
   * just before which it arrives: the index of the first of `n` checks that sees
   * the flag raised, or `n` when none of them does.
   */
  function StopIndex(cancelAt: Wrappers.Option<nat>, n: nat): (k: nat)
    ensures k <= n
    ensures k < n <==> cancelAt.Some? && cancelAt.value < n
  {
    if cancelAt.Some? && cancelAt.value < n then cancelAt.value else n
  }

  class FileSystem {
    var files: map<string, seq<byte>>

    constructor ()
      ensures files == map[]
    {
      files := map[];
    }

    /** `open(path, 'wb')`: creates the file or truncates it. */
    method Create(path: string)
      modifies this
      ensures files == old(files)[path := []]
    {
      files := files[path := []];
    }

    /** `f.write(data)` on a file opened for writing. */
    method Append(path: string, data: seq<byte>)
      requires path in files
      modifies this
      ensures files == old(files)[path := old(files)[path] + data]
    {
      files := files[path := files[path] + data];
    }

    /** `os.remove(path)`. */
    method Remove(path: string)
      modifies this
      ensures files == old(files) - {path}
    {
      files := files - {path};
    }
  }
}
