/** File-name and path helpers used by the scaffolder.

    `System.IO.Path.Combine` is a platform call whose separator and rooting rules
    are not part of this model: the platform's join is an abstract function, and
    the only behaviour fixed here is that an empty directory leaves the file name
    as it is.
 */
module Paths {

  /** `s` ends with `suffix`. */
  predicate EndsWith(s: string, suffix: string) {
    |suffix| <= |s| && s[|s| - |suffix|..] == suffix
  }

  /** The platform join never drops the file name: whatever it puts in front,
      the joined path ends with the name it was given. */
  ghost predicate KeepsFileName(join: (string, string) -> string) {
    forall dir, name :: EndsWith(join(dir, name), name)
  }

  /** `Path.Combine(dir, name)`: the bare name when the directory is empty,
      otherwise whatever the platform join makes of the two. */
  function Combine(join: (string, string) -> string, dir: string, name: string): (path: string)
    ensures |dir| == 0 ==> path == name
    ensures KeepsFileName(join) ==> EndsWith(path, name)
  {
    if |dir| == 0 then name else join(dir, name)
  }
}
