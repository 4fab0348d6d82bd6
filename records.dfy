/** The records that the standard-ion export reads from the database, as values.
    Nothing in this core creates or changes them: it only derives views and outputs. */
module Records {

  datatype Option<+T> = None | Some(value: T)

  /** The outcome of a step that may raise an exception in the program. */
  datatype Result<+T, +E> = Success(value: T) | Failure(error: E)

  /** A standard well: the chemical in it, its media label, and its concentration
      as the text Java renders for it (None where the program sees null). */
  datatype Well = Well(chemical: string, media: string, concentration: Option<string>)

  /** The intensity (signal-to-noise) and time of the best peak of one ion. */
  datatype Peak = Peak(intensity: real, time: real)

  /** One standard ion result: the id of its positive well, the ids of its negative
      wells, the per-ion peak found in it (an ion absent from the map means no peak),
      and the replicate's own best ion. */
  datatype Replicate = Replicate(
    standardWellId: int,
    negativeWellIds: seq<int>,
    analysisResults: map<string, Peak>,
    bestMetlinIon: string)

  /** One media category with its results in the order the program iterates them. */
  datatype MediaGroup = MediaGroup(media: string, results: seq<Replicate>)

  /** What makes the program stop with an exception or exit early.
      UnresolvedWell: a well id the database does not resolve (null is dereferenced).
      NoNegativeWell: the negative-well id list is empty (index 0 is out of bounds).
      NoChemicals: the chemical list to export is empty (the program exits). */
  datatype Fault = UnresolvedWell(id: int) | NoNegativeWell | NoChemicals
}
