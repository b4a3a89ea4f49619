/**
 * The public wrappers `pc1` and `pc2`: they marshal Rust values into the
 * layouts of the native sealing engine, call it once, and hand back its
 * `u32` status. The engine's bodies are foreign code; here the engine is a
 * parameter, a pair of total functions from the marshaled call to a status.
 */
module Supraseal {
  import opened Wrappers
  import opened Bytes
  import opened ReplicaIds
  import opened CStrings

  /** The `data_filenames: *const *const c_char` argument of the native `pc2`. */
  datatype FilenameList = Null | Array(paths: seq<CString>)

  /** Arguments as the native `pc1` receives them. */
  datatype Pc1Call = Pc1Call(
    blockOffset: usize,
    numSectors: usize,
    replicaIds: seq<u8>,
    parentsFilename: CString,
    sectorSize: usize)

  /** Arguments as the native `pc2` receives them. */
  datatype Pc2Call = Pc2Call(
    blockOffset: usize,
    numSectors: usize,
    outputDir: CString,
    dataFilenames: FilenameList,
    sectorSize: usize)

  /** The native entry points that have Rust wrappers. */
  datatype Engine = Engine(pc1: Pc1Call -> u32, pc2: Pc2Call -> u32)

  /**
   * What a wrapper call does: panic in `unwrap` on a path `CString::new`
   * refused, or return the native status.
   */
  datatype Outcome = Panicked(error: NulError) | Returned(status: u32)

  /**
   * Argument marshaling of `pc1`: the identifiers flattened, the parents
   * path encoded, the numbers untouched. `num_sectors` is not compared with
   * the number of identifiers.
   */
  function MarshalPc1(blockOffset: usize, numSectors: usize, replicaIds: seq<ReplicaId>,
                      parentsFilename: seq<u8>, sectorSize: usize): (r: Result<Pc1Call, NulError>)
    ensures r.Failure? <==> 0 in parentsFilename
    ensures r.Failure? ==> r.error == New(parentsFilename).error
    ensures r.Success? ==>
      && r.value.blockOffset == blockOffset
      && r.value.numSectors == numSectors
      && r.value.sectorSize == sectorSize
      && |r.value.replicaIds| == IdSize * |replicaIds|
      && Chunk(r.value.replicaIds) == replicaIds
      && ToBytes(r.value.parentsFilename) == parentsFilename
  {
    var ids := Flatten(replicaIds);
    ChunkFlattenIds(replicaIds);
    match New(parentsFilename)
    case Failure(e) => Failure(e)
    case Success(c) =>
      ToBytesNew(c);
      Success(Pc1Call(blockOffset, numSectors, ids, c, sectorSize))
  }

  /** The `pc1` wrapper. */
  function Pc1(engine: Engine, blockOffset: usize, numSectors: usize, replicaIds: seq<ReplicaId>,
               parentsFilename: seq<u8>, sectorSize: usize): (r: Outcome)
    ensures r.Panicked? <==> 0 in parentsFilename
    ensures r.Returned? ==>
      r.status == engine.pc1(MarshalPc1(blockOffset, numSectors, replicaIds, parentsFilename, sectorSize).value)
  {
    match MarshalPc1(blockOffset, numSectors, replicaIds, parentsFilename, sectorSize)
    case Failure(e) => Panicked(e)
    case Success(call) => Returned(engine.pc1(call))
  }

  /**
   * Argument marshaling of `pc2`: the output directory encoded, the numbers
   * untouched, and a null pointer in place of the data-filename list,
   * whatever the caller passed.
   */
  function MarshalPc2(blockOffset: usize, numSectors: usize, outputDir: seq<u8>,
                      dataFilenames: seq<seq<u8>>, sectorSize: usize): (r: Result<Pc2Call, NulError>)
    ensures r.Failure? <==> 0 in outputDir
    ensures r.Failure? ==> r.error == New(outputDir).error
    ensures r.Success? ==>
      && r.value.blockOffset == blockOffset
      && r.value.numSectors == numSectors
      && r.value.sectorSize == sectorSize
      && ToBytes(r.value.outputDir) == outputDir
      && r.value.dataFilenames == Null
  {
    match New(outputDir)
    case Failure(e) => Failure(e)
    case Success(c) =>
      ToBytesNew(c);
      Success(Pc2Call(blockOffset, numSectors, c, Null, sectorSize))
  }

  /**
   * The local `data_filenames_c` of `pc2`: every filename's bytes, one after
   * the other. It is built and then dropped unused.
   */
  function DataFilenamesBuffer(dataFilenames: seq<seq<u8>>): (r: seq<u8>)
    ensures |r| == TotalLength(dataFilenames)
    ensures 0 in r <==> exists i :: 0 <= i < |dataFilenames| && 0 in dataFilenames[i]
  {
    FlattenHasNulIff(dataFilenames);
    Flatten(dataFilenames)
  }

  /** The `pc2` wrapper. */
  function Pc2(engine: Engine, blockOffset: usize, numSectors: usize, outputDir: seq<u8>,
               dataFilenames: seq<seq<u8>>, sectorSize: usize): (r: Outcome)
    ensures r.Panicked? <==> 0 in outputDir
    ensures r.Returned? ==>
      r.status == engine.pc2(MarshalPc2(blockOffset, numSectors, outputDir, dataFilenames, sectorSize).value)
  {
    match MarshalPc2(blockOffset, numSectors, outputDir, dataFilenames, sectorSize)
    case Failure(e) => Panicked(e)
    case Success(call) =>
      var _ := DataFilenamesBuffer(dataFilenames);
      Returned(engine.pc2(call))
  }

  /** A refused parents path panics before the engine is reached: no engine changes the outcome. */
  lemma Pc1PanicSkipsEngine(e1: Engine, e2: Engine, blockOffset: usize, numSectors: usize,
                            replicaIds: seq<ReplicaId>, parentsFilename: seq<u8>, sectorSize: usize)
    requires 0 in parentsFilename
    ensures Pc1(e1, blockOffset, numSectors, replicaIds, parentsFilename, sectorSize).Panicked?
    ensures Pc1(e1, blockOffset, numSectors, replicaIds, parentsFilename, sectorSize)
         == Pc1(e2, blockOffset, numSectors, replicaIds, parentsFilename, sectorSize)
  {
  }

  /** A refused output directory panics before the engine is reached. */
  lemma Pc2PanicSkipsEngine(e1: Engine, e2: Engine, blockOffset: usize, numSectors: usize,
                            outputDir: seq<u8>, dataFilenames: seq<seq<u8>>, sectorSize: usize)
    requires 0 in outputDir
    ensures Pc2(e1, blockOffset, numSectors, outputDir, dataFilenames, sectorSize).Panicked?
    ensures Pc2(e1, blockOffset, numSectors, outputDir, dataFilenames, sectorSize)
         == Pc2(e2, blockOffset, numSectors, outputDir, dataFilenames, sectorSize)
  {
  }

  /** The data-filename list has no effect on `pc2`: not on the native call, not on the outcome. */
  lemma Pc2IgnoresDataFilenames(engine: Engine, blockOffset: usize, numSectors: usize, outputDir: seq<u8>,
                                d1: seq<seq<u8>>, d2: seq<seq<u8>>, sectorSize: usize)
    ensures MarshalPc2(blockOffset, numSectors, outputDir, d1, sectorSize)
         == MarshalPc2(blockOffset, numSectors, outputDir, d2, sectorSize)
    ensures Pc2(engine, blockOffset, numSectors, outputDir, d1, sectorSize)
         == Pc2(engine, blockOffset, numSectors, outputDir, d2, sectorSize)
  {
  }

  /**
   * The native status reaches the caller unchanged: for every code `s`, an
   * engine answering `s` to the marshaled call makes `pc1` return `s`.
   */
  lemma Pc1StatusUnchanged(engine: Engine, blockOffset: usize, numSectors: usize,
                           replicaIds: seq<ReplicaId>, parentsFilename: seq<u8>, sectorSize: usize)
    requires 0 !in parentsFilename
    ensures Pc1(engine, blockOffset, numSectors, replicaIds, parentsFilename, sectorSize)
         == Returned(engine.pc1(Pc1Call(blockOffset, numSectors, Flatten(replicaIds),
                                        New(parentsFilename).value, sectorSize)))
  {
  }

  /** The same for `pc2`, whose native call always receives a null list. */
  lemma Pc2StatusUnchanged(engine: Engine, blockOffset: usize, numSectors: usize, outputDir: seq<u8>,
                           dataFilenames: seq<seq<u8>>, sectorSize: usize)
    requires 0 !in outputDir
    ensures Pc2(engine, blockOffset, numSectors, outputDir, dataFilenames, sectorSize)
         == Returned(engine.pc2(Pc2Call(blockOffset, numSectors, New(outputDir).value, Null, sectorSize)))
  {
  }
}
