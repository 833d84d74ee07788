/** Adding a path, and a whole route, to the game's files (`tc_utils/paths.py`). */
module PathFile {
  import opened Wrappers
  import opened Stations
  import opened Routes
  import opened StationFile
  import opened TcFiles

  /**
   * `add_path_to_file`: one record with the path's attributes that are not None is appended;
   * the records already there are untouched.
   */
  method AddPathToFile(path: TcPath, file: TcFile)
    modifies file
    ensures file.data == old(file.data) + [ToDict(path)]
  {
    file.data := file.data + [ToDict(path)];
  }

  /**
   * `add_route_to_files`: the route's stations are added with the default flags, then its path.
   * An exception while adding the stations stops before the path is added. The two files may be
   * the same object.
   */
  method AddRouteToFiles(route: TcRoute, stationFile: TcFile, pathFile: TcFile, project: Location -> (int, int))
    returns (error: Option<Error>)
    modifies stationFile, pathFile
    ensures var o := AddStations(old(stationFile.data), route.stations, false, false, project);
      error == o.error
      && (stationFile != pathFile ==>
            stationFile.data == o.data
            && pathFile.data == old(pathFile.data) + (if o.error.None? then [ToDict(route.path)] else []))
      && (stationFile == pathFile ==>
            stationFile.data == o.data + (if o.error.None? then [ToDict(route.path)] else []))
  {
    var kept;
    kept, error := AddStationsToFile(stationFile, route.stations, false, false, project);
    if error.None? {
      AddPathToFile(route.path, pathFile);
    }
  }
}
