/** The files the sweep loop writes with `np.save`, seen as an append-only
    log of save operations. Paths are fixed by the operation kind: the
    timestamp list, the frequency axis, and one PSD file per sweep index. */
module Persistence {

  datatype SaveOp =
      /** `np.save("data/datetime_arr.npy", datetime_arr)`: the whole list so far. */
    | SaveDatetimes(stamps: seq<int>)
      /** `np.save("data/freq_arr.npy", np.concatenate(freq_arr))`. */
    | SaveFreqAxis(axis: seq<int>)
      /** `np.save("data/psd_arr_%d.npy" % sweep, np.concatenate(psd_arr))`. */
    | SavePsd(sweep: nat, psd: seq<real>)

  class Store {
    var log: seq<SaveOp>

    constructor ()
      ensures log == []
    {
      log := [];
    }

    /** One `np.save` call. */
    method Save(op: SaveOp)
      modifies this
      ensures log == old(log) + [op]
    {
      log := log + [op];
    }
  }
}
