/** Optional values and the Python exceptions the core can raise, as values. */
module Results {

  datatype Option<+T> = None | Some(value: T)

  /** The exceptions raised along the paths of the modelled functions. */
  datatype Error =
    | KeyError(key: string)         // a missing dictionary or dataset key
    | IndexError                    // `[0]` of an empty list, `[-1]` of an empty string, or a
                                    // boolean mask whose shape differs from the indexed grid's
    | InvalidLiteral(text: string)  // ValueError from `int(text)`
    | TypeError                     // `np.bitwise_and` on a floating-point grid
    | BroadcastError                // ValueError: operand shapes cannot be combined
    | ConflictingSizes              // ValueError from the DataArray constructor
    | NotTwoDimensional             // ValueError: `nrows, ncols = shape` of a grid with fewer than two axes

  datatype Result<+T> = Ok(value: T) | Err(error: Error)
}
