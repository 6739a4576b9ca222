/** Failure values shared by every module of the pymusic model. */
module Outcomes {

  /** The failures the operations signal. Each stands for an exception the
      source raises, or for the `None` it returns where no result is built. */
  datatype Error =
    | InvalidPitchName     // IndexError or KeyError while reading a spelling
    | UnknownAccidental    // KeyError: a respelling bias other than '#' or 'b'
    | InvalidChordMembers  // the Chord constructor given a Chord or a Phrase
    | TypeError            // `Chord * Note` as written (pymusic.py:123)
    | NotImplemented       // `Phrase * Phrase`, which returns None

  datatype Result<T> = Ok(value: T) | Err(error: Error)

  datatype Option<T> = None | Some(value: T)
}
