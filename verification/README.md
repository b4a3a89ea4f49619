# fil-supra-wrapper: argument marshaling model

This project models the Rust wrapper around the native sealing engine
("supraseal") used for proof-of-replication. The wrapper has two public
functions. `pc1` runs precommit phase 1 and `pc2` runs precommit phase 2.
Each one turns Rust values into the flat layouts that the native entry
points read, makes one foreign call, and returns the engine's `u32` status.

- `Bytes`: the `u8`, `u32` and 64-bit `usize` types, and the byte-level
  `flatten().collect::<Vec<u8>>()` over a list of byte strings.
- `ReplicaIds`: the `[u8; 32]` replica identifiers. Flattening them gives
  exactly 32 bytes per identifier. Re-chunking the buffer by 32 gives back
  the same ordered identifiers.
- `CStrings`: `CString::new` on the bytes of a Unix path. It finds the
  first 0 byte, or rejects nothing and appends one terminator.
  `CStr::to_bytes` is modelled as its inverse.
- `Supraseal`: the `pc1` and `pc2` wrappers. The native engine cannot be
  seen, so it is a parameter: a pair of total functions from the marshaled
  call to a status. A path rejected by `CString::new` makes `unwrap` panic.
  This is the `Panicked` outcome, and the engine is never consulted on that
  path.

## Model

| member | source | states |
|---|---|---|
| `Bytes.Flatten` | src/lib.rs:77-81 | the collected buffer's length is the sum of the pieces' lengths |
| `Bytes.FlattenPlacesPiece` | src/lib.rs:77-81 | piece `i` appears unchanged at its offset and ends where piece `i + 1` starts, so nothing is inserted between pieces |
| `Bytes.FlattenPrefix` | src/lib.rs:77-81 | flattening distributes over splitting the list of pieces |
| `Bytes.FlattenHasNulIff` | src/lib.rs:77-81 | the buffer contains a 0 byte iff some piece does, so no terminators are added |
| `ReplicaIds.Chunk` | src/lib.rs:55 | cutting a 32-aligned buffer gives `len / 32` identifiers, and byte `j` of identifier `i` is buffer byte `32 * i + j` |
| `ReplicaIds.FlattenIdsLength` | src/lib.rs:55 | the flattened replica-id buffer is exactly `32 * n` bytes for `n` identifiers |
| `ReplicaIds.FlattenIdsAt` | src/lib.rs:55 | byte `32 * i + j` of the buffer is byte `j` of identifier `i` |
| `ReplicaIds.ChunkFlattenIds` | src/lib.rs:55 | re-chunking the flattened buffer reproduces the original ordered identifiers |
| `ReplicaIds.FlattenIdsChunk` | src/lib.rs:55 | every 32-aligned buffer is the flattening of its chunks (the other direction of the round trip) |
| `ReplicaIds.FlattenIdsInjective` | src/lib.rs:55 | different identifier batches never produce the same buffer |
| `CStrings.FindNul` | src/lib.rs:56-57 | finds nothing iff the bytes hold no 0; otherwise gives the index of the first 0 |
| `CStrings.New` | src/lib.rs:56-57 | fails iff the bytes contain a 0, and the error reports the bytes and the first 0's position; on success the result is the bytes followed by exactly one 0, with no interior 0 |
| `CStrings.ToBytes` | src/lib.rs:56-57 | dropping the terminator leaves one byte fewer, with no 0 byte |
| `CStrings.NewToBytes` | src/lib.rs:56-57 | encoding a NUL-free path and then dropping the terminator gives back the path |
| `CStrings.ToBytesNew` | src/lib.rs:76 | every C string is the encoding of its own bytes |
| `CStrings.NewInjective` | src/lib.rs:76 | two paths that encode to the same C string are equal |
| `Supraseal.MarshalPc1` | src/lib.rs:55-65 | fails iff the parents path contains a 0 byte, with `CString::new`'s error. On success it forwards block offset, sector count and sector size unchanged, passes `32 * n` id bytes that re-chunk to the ids, and passes a C string whose bytes are the path. The sector count is not compared with the number of ids |
| `Supraseal.Pc1` | src/lib.rs:48-67 | panics iff the parents path contains a 0 byte; otherwise returns the engine's status for the marshaled call, unremapped |
| `Supraseal.MarshalPc2` | src/lib.rs:76-89 | fails iff the output directory contains a 0 byte. On success it forwards the numbers unchanged, passes the encoded directory, and always passes a null data-filename list |
| `Supraseal.DataFilenamesBuffer` | src/lib.rs:77-81 | the unused `data_filenames_c` is as long as the filenames together, and holds a 0 byte only if some filename does |
| `Supraseal.Pc2` | src/lib.rs:69-93 | panics iff the output directory contains a 0 byte; otherwise returns the engine's status for the marshaled call, unremapped |
| `Supraseal.Pc1PanicSkipsEngine` | src/lib.rs:56-59 | with a 0 byte in the parents path, `pc1` panics and its outcome does not depend on the engine, so the native `pc1` is never invoked |
| `Supraseal.Pc2PanicSkipsEngine` | src/lib.rs:76-83 | with a 0 byte in the output directory, `pc2` panics whatever the engine, so the native `pc2` is never invoked |
| `Supraseal.Pc2IgnoresDataFilenames` | src/lib.rs:77-90 | any two data-filename lists give the same native call and the same outcome |
| `Supraseal.Pc1StatusUnchanged` | src/lib.rs:55-66 | for a valid path, `pc1` returns exactly the status the engine gives for (offset, count, flattened ids, encoded path, size) |
| `Supraseal.Pc2StatusUnchanged` | src/lib.rs:76-92 | for a valid directory, `pc2` returns exactly the status the engine gives for (offset, count, encoded directory, null, size) |

## Left out

- The native engine's internals (src/lib.rs:10-45) are foreign C code. The engine is a parameter of `Pc1` and `Pc2` and is otherwise uninterpreted.
- `get_max_block_offset`, `get_slot_size`, `pc2_cleanup` and `c1` are declared but have no Rust wrapper and are never called, so there is no behaviour to model.
- No phase ordering, `block_offset` or `sector_slot` bounds check, or path-list default choice exists in the wrapper. None is modelled.
- The `println!` of the `pc2` status (src/lib.rs:91) is console I/O.
- Raw pointers, `unsafe` and buffer lifetimes are not modelled: buffers are sequences.
- The panic is the `Panicked` outcome. Unwinding is not modelled.
- `usize` is taken as 64 bits wide. A flattened buffer too large for `Vec` (capacity overflow) is not modelled.
- build.rs is not part of this model. It is build plumbing that deletes a directory and runs a shell script.
