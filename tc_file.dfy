/** A loaded game data file (`tc_utils.TcFile`): the list of records under its "data" key. */
module TcFiles {
  import opened Json

  /** Reading and saving the file are not modelled; `data` is the list the tools append to and update. */
  class TcFile {
    var data: seq<Dict>
  }
}
