# remote_target configuration core, in Dafny

`remote_target` is a small command-line tool. It pushes a local directory tree to a
remote server over SFTP. A file named `.remote_target` marks the root of a project and
holds the connection settings. This project models the part of the tool that finds and
reads that file, `remote_target/remote_conf.py`:

- `find_remote_target_file_in_parents` walks up from a start directory to the root. It
  returns the `.remote_target` file of the nearest directory that holds one. Module
  `Locator`, function `Find`.
- `RemoteTargetConf` is the configuration value: the directory the file was found in
  (`local_root`) plus the file's `DEFAULT` section. Module `RemoteConf`:
  - `load` (function `Load`);
  - `create_default` (method `CreateDefault`, which adds the file to a `FileSystem`);
  - the five properties (`Hostname`, `Username`, `Password`, `PrivateKey`,
    `RemoteDirectory`);
  - `__repr__` (`Repr`).

Paths are sequences of components (module `Paths`). The root is the empty sequence and
is its own parent, which is the guard the search stops on. A file system is the set of
paths that are regular files, the paths `Path.is_file()` answers true for. The `DEFAULT`
section is a map from option name to value. configparser folds option names to lower
case, so the keys are `hostname`, `username`, `password`, `privatekey` and `remotedir`.
A missing required option gives `MissingKey` with that folded name. Python gives
`KeyError` with the name as the code spells it.

The docstring of `find_remote_target_file_in_parents` calls the file `.target_file`.
The code looks for `.remote_target`, and so does the model.

Module `Text` splits a rendering back into lines. That is how the model states that
`__repr__` prints one field per line.

Module `Interpolation` models the syntax check configparser's basic interpolation runs
on every value `create_default` stores. A `%` must start an escape `%%` or a reference
`%(name)s`. Otherwise storing the value raises `ValueError`, and this happens before the
file is opened. `CreateDefault` returns that error as `BadInterpolation` and writes no
file.

## Model

| member | source | states |
|---|---|---|
| Paths.Parent | remote_target/remote_conf.py:109-111 | the parent is the path minus its last component; a path is its own parent exactly when it is the root |
| Paths.Marker | remote_target/remote_conf.py:106-107 | the probed path is the directory followed by the component `.remote_target` |
| Locator.Find | remote_target/remote_conf.py:98-114 | any result is a regular file named `.remote_target` whose directory is an ancestor-or-self of the start; the recursion terminates on strictly shorter paths |
| Locator.FindAtStart | remote_target/remote_conf.py:105-107 | when the start directory holds the file, that file is returned |
| Locator.FindAtRoot | remote_target/remote_conf.py:109-112 | at the root, without the file there, the result is `None` |
| Locator.FindNoneIff | remote_target/remote_conf.py:98-114 | the result is `None` exactly when no ancestor-or-self of the start holds the file |
| Locator.FindNearest | remote_target/remote_conf.py:98-114 | the result is the file of directory `d` exactly when `d` holds it and no directory between `d` and the start does (nearest ancestor wins) |
| Locator.FindOnlyProbesAncestors | remote_target/remote_conf.py:106 | the result depends only on which ancestors-or-self of the start hold the file |
| RemoteConf.Load | remote_target/remote_conf.py:22-34 | fails with FileNotFound exactly when the target is not a regular file; otherwise keeps the parsed section, and the local root is the target's directory |
| RemoteConf.HomeDir | remote_target/remote_conf.py:41-43 | `HOME` when it is set and non-empty, otherwise `/home/<user>`; never empty |
| RemoteConf.DefaultSection | remote_target/remote_conf.py:46-52 | the scaffold holds exactly Hostname, Username, PrivateKey and RemoteDir, with the placeholder host, the user, `<home>/.ssh/id_rsa` and `/tmp`, and no Password |
| RemoteConf.CreateDefault | remote_target/remote_conf.py:37-61 | an existing target fails with FileExists; a user name or key path that basic interpolation refuses fails with BadInterpolation (user name first); in all these cases the files are unchanged; otherwise the target is added, every other file stays, and the result is the scaffold rooted at the target's directory |
| Interpolation.DropEscapes | remote_target/remote_conf.py:47 | removing the `%%` escapes never lengthens a value and leaves a value without `%` as it is |
| Interpolation.ReferenceAt | remote_target/remote_conf.py:47 | a non-zero result is the length of a `%(name)s` reference at the start, and it is the only such length |
| Interpolation.DropReferences | remote_target/remote_conf.py:47 | removing the references never lengthens a value and leaves a value without `%` as it is |
| Interpolation.PlainAccepted | remote_target/remote_conf.py:47 | storing a value without `%` does not raise |
| Interpolation.EscapeAccepted | remote_target/remote_conf.py:47 | a `%%` escape between plain text is accepted |
| Interpolation.LonePercentRejected | remote_target/remote_conf.py:47 | a first `%` followed by neither `%` nor `(` makes storing raise, e.g. HOME `/home/a%b` |
| RemoteConf.Hostname | remote_target/remote_conf.py:72-74 | the stored value when present, a missing-key error otherwise |
| RemoteConf.Username | remote_target/remote_conf.py:76-78 | the stored value when present, a missing-key error otherwise |
| RemoteConf.Password | remote_target/remote_conf.py:80-85 | the stored value when present, `None` otherwise |
| RemoteConf.PrivateKey | remote_target/remote_conf.py:87-92 | the stored value when present, `None` otherwise |
| RemoteConf.RemoteDirectory | remote_target/remote_conf.py:94-96 | the stored value when present, a missing-key error otherwise |
| RemoteConf.Repr | remote_target/remote_conf.py:63-70 | the rendering fails exactly when hostname, username or remote directory is missing, naming the first missing one in that order |
| RemoteConf.ReprLines | remote_target/remote_conf.py:63-70 | when no value holds a line break, the rendering splits into exactly five lines: hostname, username, password, private_key, remote_directory, each with its value (`None` for an absent optional), and it is exactly those lines each ended by a newline |
| RemoteConf.DefaultConfAccessors | remote_target/remote_conf.py:41-52 | on the configuration `create_default` builds, the password is `None`, the private key is `<home>/.ssh/id_rsa`, the required fields hold the defaults, and the rendering succeeds |
| RemoteConf.LoadFoundTarget | remote_target/__main__.py:15-20 | loading the file the search found succeeds, and its local root is the nearest ancestor-or-self of the start directory holding the file |
| RemoteConf.InitThenLoad | remote_target/remote_conf.py:53-61 | after the scaffold is written in a directory, the search from there finds it, and loading it gives the configuration `create_default` returned |
| Text.LinesUnlines | remote_target/remote_conf.py:64-70 | newline-free lines, each terminated by a newline and joined, split back into the same lines |

## Left out

- configparser's parsing and writing of the file text, and its `${...}` interpolation (`ExtendedInterpolation` in `load`). `Load` takes the parsed, interpolated `DEFAULT` section as a parameter. `InitThenLoad` takes as given that reading back what `config.write` wrote gives the same section.
- Interpolation on reading the configuration `create_default` returns. That object uses configparser's basic interpolation. Values that pass the storing check can still hold `%%` or `%(name)s`. On reading, `%%` gives `%`, and `%(name)s` is replaced by another option's value or raises. The accessors return the stored values.
- DefaultConfAccessors: states the stored values. Python's `username` and `private_key` differ from them when the user name or HOME holds `%%` or `%(name)s`, because of basic interpolation on reading.
- InitThenLoad: takes the read-back section as the stored one. `load` reads with extended interpolation, while the object `create_default` returns uses basic interpolation. So after `init` then `info`, a `$` in HOME makes reading `private_key` raise. A `%%` reads as `%` before the reload and as `%%` after it.
- Load: fails only when the target is not a regular file. `config.read` also raises on malformed text: a missing section header, a parse error, a duplicate option, or bytes that are not UTF-8. These failures are not modelled.
- `Path.is_file()` is modelled as a total probe. It re-raises stat errors other than "not found", "not a directory", "bad descriptor" and "too many links", such as a permission error. So `find`, `load` and `create_default` can raise where the model returns a result.
- Case folding of option names beyond the five names the tool reads. Keys are taken as already folded.
- Sections other than `DEFAULT`. The tool reads no others.
- `os.getenv("HOME")` and `getuser()` are parameters (`home`, `user`). The code calls `getuser()` twice, and the model takes one value for both calls.
- CreateDefault: failures of `target_file.open('w')` are not modelled. These are a directory at the target path, a missing parent directory and a permission error. Only the `is_file` check, the interpolation check and the new file are.
- Relative paths and platform roots. The model has one root, `[]`, so `Path(".remote_target")` relative to the working directory (the `init` command) is modelled as an absolute path.
- remote_target/__main__.py: argument parsing, printing and exit codes are not part of this model.
- remote_target/stfp_connection.py: the SFTP session, `makedirs` and the recursive upload are not part of this model. They are network I/O through an external library.
