/** An append-only file on a disk that may write part of an append, and may fail to undo it. */
module Disk {
  import opened Bytes

  /** What the disk did with one append: how many bytes it wrote, whether write and sync succeeded, and
      whether the truncation and the seek after a failure did. */
  datatype Io = Io(wrote: nat, ok: bool, truncated: bool, sought: bool)

  function Truncated(file: Octets, n: nat): Octets { if n <= |file| then file[..n] else file }

  /** Bytes written at the cursor. */
  function WriteAt(file: Octets, cursor: nat, data: Octets): Octets {
    if cursor > |file| then file
    else if cursor + |data| >= |file| then file[..cursor] + data
    else file[..cursor] + data + file[cursor + |data|..]
  }

  predicate IoOk(io: Io, rec: Octets) { io.wrote <= |rec| && (io.ok ==> io.wrote == |rec|) }
}
