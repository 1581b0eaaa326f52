/** How the save manager turns names into file paths. Two host values enter:
    `Application.persistentDataPath` and `Path.DirectorySeparatorChar`; both
    are fixed per process and are parameters here. */
module Paths {

  /** The host values every path is built from. */
  datatype Host = Host(persistentDataPath: string, separator: char)

  /** File name extension of the game specific data file. */
  const SavedGameFileSuffix: string := ".save"

  /** File name extension of the metadata file. */
  const MetadataFileSuffix: string := ".meta"

  /** `Directory.GetFiles` pattern that lists the metadata files. */
  const MetadataSearchPattern: string := "*" + MetadataFileSuffix

  /** `SavedGameRootPath`: the folder "Saved Games" under persistent storage,
      with a trailing separator. */
  function SavedGameRootPath(h: Host): (p: string)
    ensures |p| == |h.persistentDataPath| + 13
    ensures p[..|h.persistentDataPath|] == h.persistentDataPath
    ensures p[|p| - 1] == h.separator
  {
    h.persistentDataPath + [h.separator] + "Saved Games" + [h.separator]
  }

  /** Where a saved game's data goes: root, base name, ".save". */
  function GameDataPath(h: Host, savedGameFileName: string): (p: string)
    ensures |p| == |SavedGameRootPath(h)| + |savedGameFileName| + 5
    ensures p[..|SavedGameRootPath(h)|] == SavedGameRootPath(h)
    ensures p[|p| - 5..] == SavedGameFileSuffix
  {
    SavedGameRootPath(h) + savedGameFileName + SavedGameFileSuffix
  }

  /** Where a saved game's metadata goes: root, base name, ".meta". */
  function MetadataPath(h: Host, savedGameFileName: string): (p: string)
    ensures |p| == |SavedGameRootPath(h)| + |savedGameFileName| + 5
    ensures p[..|SavedGameRootPath(h)|] == SavedGameRootPath(h)
    ensures p[|p| - 5..] == MetadataFileSuffix
  {
    SavedGameRootPath(h) + savedGameFileName + MetadataFileSuffix
  }

  /** The path `SaveData`, `LoadDataMultiple` and `DeleteData` use for a
      caller's path: persistent storage followed directly by the path. */
  function DataPath(h: Host, path: string): string
  {
    h.persistentDataPath + path
  }

  /** The path `LoadData` uses: unlike the other three generic operations it
      puts a separator in between, so for the same argument it names a
      different string than the one `SaveData` wrote to. */
  function LoadDataPath(h: Host, path: string): (p: string)
    ensures p == DataPath(h, [h.separator] + path)
    ensures p != DataPath(h, path)
  {
    assert |h.persistentDataPath + [h.separator] + path| != |DataPath(h, path)|;
    h.persistentDataPath + [h.separator] + path
  }

  /** `DeleteData`'s rewrite of its array, as a function of the old contents. */
  function Prefixed(prefix: string, paths: seq<string>): seq<string>
  {
    seq(|paths|, i requires 0 <= i < |paths| => prefix + paths[i])
  }

  /** The two files of a saved game share root and base name and differ only
      in their suffix, so they are never the same file. */
  lemma {:induction false} SiblingPaths(h: Host, savedGameFileName: string)
    ensures GameDataPath(h, savedGameFileName)[..|GameDataPath(h, savedGameFileName)| - 5]
         == MetadataPath(h, savedGameFileName)[..|MetadataPath(h, savedGameFileName)| - 5]
         == SavedGameRootPath(h) + savedGameFileName
    ensures GameDataPath(h, savedGameFileName) != MetadataPath(h, savedGameFileName)
  {
    var base := SavedGameRootPath(h) + savedGameFileName;
    assert GameDataPath(h, savedGameFileName) == base + SavedGameFileSuffix;
    assert MetadataPath(h, savedGameFileName) == base + MetadataFileSuffix;
    assert (base + SavedGameFileSuffix)[|base| + 1] == 's';
    assert (base + MetadataFileSuffix)[|base| + 1] == 'm';
  }

  /** A data path is never a metadata path, whatever the two base names. */
  lemma {:induction false} DataPathIsNeverMetadataPath(h: Host, name1: string, name2: string)
    ensures GameDataPath(h, name1) != MetadataPath(h, name2)
  {
    var p, q := GameDataPath(h, name1), MetadataPath(h, name2);
    assert p[|p| - 4] == 's';
    assert q[|q| - 4] == 'm';
  }

  /** Different base names give different data paths and different metadata
      paths: the base name is the key of a saved game on disk. */
  lemma {:induction false} PathsDetermineName(h: Host, name1: string, name2: string)
    ensures GameDataPath(h, name1) == GameDataPath(h, name2) ==> name1 == name2
    ensures MetadataPath(h, name1) == MetadataPath(h, name2) ==> name1 == name2
  {
    var root := SavedGameRootPath(h);
    if GameDataPath(h, name1) == GameDataPath(h, name2) {
      assert |name1| == |name2|;
      assert name1 == GameDataPath(h, name1)[|root|..|root| + |name1|];
      assert name2 == GameDataPath(h, name2)[|root|..|root| + |name2|];
    }
    if MetadataPath(h, name1) == MetadataPath(h, name2) {
      assert |name1| == |name2|;
      assert name1 == MetadataPath(h, name1)[|root|..|root| + |name1|];
      assert name2 == MetadataPath(h, name2)[|root|..|root| + |name2|];
    }
  }
}
