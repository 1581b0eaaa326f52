/** The metadata record of a saved game (SavedGameMetadata.cs): a class with
    public mutable fields, four validating constructors, and field defaults
    for whatever a constructor does not set. */
module Metadata {
  import opened Common

  /** `default(TimeSpan)`, in ticks: a zero duration. */
  const ZeroDuration: int := 0

  /** `default(DateTime)`, in ticks: `DateTime.MinValue`. */
  const DefaultTimeStamp: int := 0

  /** Durations and points in time are kept as tick counts, which is also how
      .NET compares them. */
  class SavedGameMetadata {
    var savedGameFileName: string
    var slot: int
    var timePlayed: int
    var timeStamp: int

    /** The field assignments of the constructors, after their file name
        check; what a constructor does not assign keeps its default. */
    constructor Assign(savedGameFileName: string, timePlayed: int, slot: int)
      ensures this.savedGameFileName == savedGameFileName
      ensures this.timePlayed == timePlayed && this.slot == slot
      ensures this.timeStamp == DefaultTimeStamp
    {
      this.savedGameFileName := savedGameFileName;
      this.timePlayed := timePlayed;
      this.slot := slot;
      this.timeStamp := DefaultTimeStamp;
    }
  }

  /** The exception every constructor throws for a missing file name. */
  const MissingFileName: Error := ArgumentError("savedGameFileName")

  /** `new SavedGameMetadata(savedGameFileName)`. */
  method New(savedGameFileName: Option<string>) returns (r: Result<SavedGameMetadata, Error>)
    ensures r.Failure? <==> IsNullOrEmpty(savedGameFileName)
    ensures r.Failure? ==> r.error == MissingFileName
    ensures r.Success? ==> (fresh(r.value)
      && r.value.savedGameFileName == savedGameFileName.value
      && r.value.slot == 0
      && r.value.timePlayed == ZeroDuration
      && r.value.timeStamp == DefaultTimeStamp)
  {
    if IsNullOrEmpty(savedGameFileName) {
      return Failure(MissingFileName);
    }
    var m := new SavedGameMetadata.Assign(savedGameFileName.value, ZeroDuration, 0);
    r := Success(m);
  }

  /** `new SavedGameMetadata(savedGameFileName, timePlayed)`. */
  method NewWithTimePlayed(savedGameFileName: Option<string>, timePlayed: int)
    returns (r: Result<SavedGameMetadata, Error>)
    ensures r.Failure? <==> IsNullOrEmpty(savedGameFileName)
    ensures r.Failure? ==> r.error == MissingFileName
    ensures r.Success? ==> (fresh(r.value)
      && r.value.savedGameFileName == savedGameFileName.value
      && r.value.slot == 0
      && r.value.timePlayed == timePlayed
      && r.value.timeStamp == DefaultTimeStamp)
  {
    if IsNullOrEmpty(savedGameFileName) {
      return Failure(MissingFileName);
    }
    var m := new SavedGameMetadata.Assign(savedGameFileName.value, timePlayed, 0);
    r := Success(m);
  }

  /** `new SavedGameMetadata(savedGameFileName, slot)`. */
  method NewWithSlot(savedGameFileName: Option<string>, slot: int)
    returns (r: Result<SavedGameMetadata, Error>)
    ensures r.Failure? <==> IsNullOrEmpty(savedGameFileName)
    ensures r.Failure? ==> r.error == MissingFileName
    ensures r.Success? ==> (fresh(r.value)
      && r.value.savedGameFileName == savedGameFileName.value
      && r.value.slot == slot
      && r.value.timePlayed == ZeroDuration
      && r.value.timeStamp == DefaultTimeStamp)
  {
    if IsNullOrEmpty(savedGameFileName) {
      return Failure(MissingFileName);
    }
    var m := new SavedGameMetadata.Assign(savedGameFileName.value, ZeroDuration, slot);
    r := Success(m);
  }

  /** `new SavedGameMetadata(savedGameFileName, timePlayed, slot)`. */
  method NewWithTimePlayedAndSlot(savedGameFileName: Option<string>, timePlayed: int, slot: int)
    returns (r: Result<SavedGameMetadata, Error>)
    ensures r.Failure? <==> IsNullOrEmpty(savedGameFileName)
    ensures r.Failure? ==> r.error == MissingFileName
    ensures r.Success? ==> (fresh(r.value)
      && r.value.savedGameFileName == savedGameFileName.value
      && r.value.slot == slot
      && r.value.timePlayed == timePlayed
      && r.value.timeStamp == DefaultTimeStamp)
  {
    if IsNullOrEmpty(savedGameFileName) {
      return Failure(MissingFileName);
    }
    var m := new SavedGameMetadata.Assign(savedGameFileName.value, timePlayed, slot);
    r := Success(m);
  }
}
