/**
  `WelcomeApp.__init__`: where the bundled page and its assets are read
  from. A `data/` directory beside the program wins (a development
  checkout); otherwise the system share directory is used; with neither,
  the program stops, here an `Err`.
*/
module WelcomeApp {
  import opened Wrappers

  const RelativeData := "data/"
  const SystemData := "/usr/share/antergos-welcome/"

  datatype DataError = NoDataDirectory

  /** `os.path.join(a, b)` for POSIX paths and two components. */
  function Join(a: string, b: string): (r: string)
    ensures |b| <= |r| && r[|r| - |b|..] == b
    ensures |b| > 0 && b[0] == '/' ==> r == b
    ensures !(|b| > 0 && b[0] == '/') ==> a <= r && |r| <= |a| + |b| + 1
    ensures !(|b| > 0 && b[0] == '/') && |a| > 0 ==> |b| < |r| && r[|r| - |b| - 1] == '/'
    ensures !(|b| > 0 && b[0] == '/') ==>
      |r| == |a| + |b| + (if a == [] || a[|a| - 1] == '/' then 0 else 1)
  {
    if |b| > 0 && b[0] == '/' then b
    else if a == [] || a[|a| - 1] == '/' then a + b
    else a + "/" + b
  }

  /**
    The data directory, given the program's own directory `location` and
    the set of paths that exist.
  */
  function DataPath(location: string, existing: set<string>): (r: Result<string, DataError>)
    ensures r.Ok? <==> Join(location, RelativeData) in existing || SystemData in existing
    ensures r.Ok? ==> r.value in existing
    ensures r.Ok? ==> r.value == Join(location, RelativeData) || r.value == SystemData
    ensures Join(location, RelativeData) in existing ==> r == Ok(Join(location, RelativeData))
  {
    var relative := Join(location, RelativeData);
    if relative in existing then Ok(relative)
    else if SystemData in existing then Ok(SystemData)
    else Err(NoDataDirectory)
  }

}
