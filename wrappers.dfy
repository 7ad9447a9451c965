/** Option and Result, and the fatal conditions of the external-memory data matrix. */
module Wrappers {

  datatype Option<+T> = None | Some(value: T)

  /** The checks of sparse_page_dmatrix.cc that abort the current call. */
  datatype Error =
    | GpuSupportRequired   // a device-side fallback in a build without accelerator support
    | ZeroColumns          // CHECK_NE(info_.num_col_, 0) after the all-reduce
    | MaxBinTooSmall       // CHECK_GE(param.max_bin, 2)

  datatype Result<+T> = Success(value: T) | Failure(error: Error)
}
