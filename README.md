# Process store of the Hazelcast member command line

This project models `ProcessStore`, the registry the member command line keeps
of the Hazelcast members it has started. The registry is a persistent map from a
member's name to its `HazelcastProcess` record (name, logging configuration path,
log file path, pid). It lives in one file, `instances.dat`, under the Hazelcast
home directory. Every operation reads the whole map from that file, changes it in
memory and writes the whole map back. The store also fixes where each member's
workspace files go: `<home>/<name>/logs/hazelcast.log` and
`<home>/<name>/logging.properties`.

Files:

- `wrappers.dfy` (module `Wrappers`): `Option` and `Result`.
- `workspace.dfy` (module `Workspace`): the record, the path layout, the text of
  the generated logging configuration, and lemmas about them.
- `registry.dfy` (module `Registry`): the file as an abstract state
  `Absent | Empty | Stored(map) | Corrupt`. Pure functions give what each store
  operation returns and what the file holds afterwards. Lemmas relate the
  operations to each other.
- `member.dfy` (module `Member`): class `ProcessStore`. Its field `file` is the
  content of the instances file. Its methods read, mutate and rewrite the map as
  the source does, and are proved against the functions of `Registry`.

Java object serialisation is modelled as identity: the file holds the map that was
written. A file that does not deserialise to a map is `Corrupt`. Each read of
such a file fails with `ReadFailed`, and no read returns part of the map.
Writing an empty map gives `Stored(map[])`, not `Empty`, because a serialised
empty map is not a zero-byte file. Reading an absent file creates it empty.
So every operation, even one that fails with `NotFound`, turns `Absent` into
`Empty` (`Registry.Opened`).

Inputs that the source takes from its environment are parameters here:

- the platform path separator (`HazelcastCommandLine.SEPARATOR`);
- what the instances file holds when the store is built;
- the random member name that `create` draws.

## Model

| member | source | states |
|---|---|---|
| Member.ProcessStore.constructor | src/main/java/com/hazelcast/commandline/member/ProcessStore.java:44-48 | the registry file is `home + sep + "instances.dat"`; the store starts from the file as it is on disk |
| Member.ProcessStore.FindAll | src/main/java/com/hazelcast/commandline/member/ProcessStore.java:66-86 | returns `ReadAll` of the file; an absent file is created empty; among the modelled file states, fails exactly when the file is corrupt (I/O failures are left out) |
| Member.ProcessStore.UpdateFile | src/main/java/com/hazelcast/commandline/member/ProcessStore.java:88-94 | the file afterwards holds exactly the given map |
| Member.ProcessStore.Save | src/main/java/com/hazelcast/commandline/member/ProcessStore.java:59-64 | the new file is `SaveTo` of the old one; afterwards find of the saved name gives the saved record; a corrupt file fails and is left as it was; keeps records keyed by their own name |
| Member.ProcessStore.Find | src/main/java/com/hazelcast/commandline/member/ProcessStore.java:96-98 | returns `FindIn` of the file; only side effect is creating an absent file |
| Member.ProcessStore.Remove | src/main/java/com/hazelcast/commandline/member/ProcessStore.java:100-108 | a name that is not stored fails with `NotFound` and nothing is written (the map read is unchanged); otherwise the new file is `RemoveFrom` of the old one and exists of the name is false; keeps records keyed by their own name |
| Member.ProcessStore.Exists | src/main/java/com/hazelcast/commandline/member/ProcessStore.java:110-112 | returns `ExistsIn` of the file; only side effect is creating an absent file |
| Member.ProcessStore.Create | src/main/java/com/hazelcast/commandline/member/ProcessStore.java:114-121 | the new record carries the given name and no pid; its log file and logging configuration paths follow the workspace layout; they differ from each other and from the registry file; the generated configuration has the FileHandler pattern line whose value is the log file path |
| Member.ProcessStore.CreateProcessDirs | src/main/java/com/hazelcast/commandline/member/ProcessStore.java:123-132 | the workspace directory is `home + sep + name`, inside the home directory |
| Member.ProcessStore.CreateLoggingPropertiesFile | src/main/java/com/hazelcast/commandline/member/ProcessStore.java:134-148 | the configuration file is `processDir + sep + "logging.properties"`; its text has the line `java.util.logging.FileHandler.pattern = <logFilePath>` |
| Registry.Opened | src/main/java/com/hazelcast/commandline/member/ProcessStore.java:69-72 | looking at the file creates it empty if it is absent and changes nothing else |
| Registry.ReadAll | src/main/java/com/hazelcast/commandline/member/ProcessStore.java:66-86 | absent and empty files read as the empty map; a stored map reads back as itself; a corrupt file fails with `ReadFailed` and nothing else fails |
| Registry.FindIn | src/main/java/com/hazelcast/commandline/member/ProcessStore.java:96-98 | gives a record exactly when the name is a key of the map read, and then the record under that key; fails exactly when the read fails |
| Registry.ExistsIn | src/main/java/com/hazelcast/commandline/member/ProcessStore.java:110-112 | true exactly when `FindIn` gives a record; fails exactly when `FindIn` fails |
| Registry.SaveTo | src/main/java/com/hazelcast/commandline/member/ProcessStore.java:59-64 | fails only on a corrupt file; the keys afterwards are the old keys plus the record's name; the record is stored under its name; every other entry is unchanged |
| Registry.RemoveFrom | src/main/java/com/hazelcast/commandline/member/ProcessStore.java:100-108 | fails exactly when the file is corrupt or the name is not stored, with `NotFound(name)` in the second case; otherwise the keys afterwards are the old keys minus the name, and every remaining entry is unchanged |
| Registry.OpenedReadsSame | src/main/java/com/hazelcast/commandline/member/ProcessStore.java:69-75 | creating an absent file does not change what is read from it |
| Registry.SaveThenFind | src/main/java/com/hazelcast/commandline/member/ProcessStore.java:59-64 | after save of a record, find of its name returns it and exists of its name is true |
| Registry.SaveKeepsOthers | src/main/java/com/hazelcast/commandline/member/ProcessStore.java:61-63 | save leaves find of every other name unchanged |
| Registry.SaveReplaces | src/main/java/com/hazelcast/commandline/member/ProcessStore.java:59-64 | saving two records under the same name has the same effect as saving only the second |
| Registry.SaveThenRemove | src/main/java/com/hazelcast/commandline/member/ProcessStore.java:59-108 | removing a freshly saved, previously absent name restores the earlier map |
| Registry.RemoveMissingFails | src/main/java/com/hazelcast/commandline/member/ProcessStore.java:100-105 | remove of a name for which exists is false fails with `NotFound` |
| Registry.RemoveThenAbsent | src/main/java/com/hazelcast/commandline/member/ProcessStore.java:102-112 | after a successful remove, exists of the name is false and find of every other name is unchanged |
| Registry.CorruptFailsClosed | src/main/java/com/hazelcast/commandline/member/ProcessStore.java:66-86 | on a corrupt file, findAll, find, exists, save and remove all fail and none returns a map |
| Registry.SavePreservesKeyedByName | src/main/java/com/hazelcast/commandline/member/ProcessStore.java:62 | if every key maps to a record of that name before save, that still holds after it |
| Registry.RemovePreservesKeyedByName | src/main/java/com/hazelcast/commandline/member/ProcessStore.java:106 | if every key maps to a record of that name before remove, that still holds after it |
| Workspace.LogFilePathInjective | src/main/java/com/hazelcast/commandline/member/ProcessStore.java:114-125 | two names share a log file path exactly when they are the same name |
| Workspace.LoggingPropertiesPathInjective | src/main/java/com/hazelcast/commandline/member/ProcessStore.java:134-136 | two names share a logging configuration path exactly when they are the same name |
| Workspace.StoreFilesDistinct | src/main/java/com/hazelcast/commandline/member/ProcessStore.java:44-136 | the registry file, any member's log file and any member's logging configuration are three different paths, whatever the home, separator and names |
| Workspace.WorkspaceLayout | src/main/java/com/hazelcast/commandline/member/ProcessStore.java:114-136 | the workspace directory lies in the home directory; the logging configuration lies in the workspace; the log file lies in the logs directory that is created |
| Workspace.LogFileLocationWithSlash | src/test/java/com/hazelcast/commandline/member/MemberCommandLineTest.java:151 | with `/` as separator the log file is `<home>/<name>/logs/hazelcast.log` |
| Workspace.LoggingPropertiesNameLogFile | src/main/java/com/hazelcast/commandline/member/ProcessStore.java:138-145 | the generated configuration has `java.util.logging.FileHandler.pattern = <logFilePath>` as a line of its own |

## Left out

- Java object serialisation (`ObjectInputStream`, `ObjectOutputStream`): modelled as storing the map itself, with `Corrupt` for any file that does not read back as a map.
- A file holding a serialised `null`: the source then returns `null` from findAll, so save, find and exists fail with a null dereference and remove fails with "No process found". The model treats such a file as `Corrupt`, so every operation fails with `ReadFailed`.
- Member.ProcessStore.UpdateFile: never fails in the model. The source can throw an `IOException` while writing, which can leave a truncated file.
- Member.ProcessStore.constructor: the home directory creation (`mkdirs`) is OS I/O and is not modelled. The source ignores the `false` that a failed `mkdirs` returns, so a missing home directory is not reported here; it shows up only at the next findAll.
- Member.ProcessStore.FindAll: I/O failures while creating, opening or sizing the file (for example a missing or read-only home directory) are not modelled. The source reports them as a read error; in the model an absent file always becomes empty and reads as the empty map, and only a corrupt file fails.
- Member.ProcessStore.CreateProcessDirs: the directory creation and its error are OS I/O; only the path is modelled.
- Member.ProcessStore.CreateLoggingPropertiesFile: writing the file is OS I/O, as is its `FileNotFoundException`. The text is returned instead of written. The line break that `println` adds is taken to be `\n`.
- `MobyNames.getRandomName`: random, and `MobyNames` is not part of this model; the name is a parameter of `Create`. The source does not check it against stored keys, so no uniqueness of names is claimed.
- `HazelcastProcess` is not part of this model. Its pid is modelled as `Option<int>`. `create` leaves it unset (`None`); the caller sets it after spawning.
- `HazelcastCommandLine.SEPARATOR` is not part of this model; the separator is a parameter.
- Cross-process locking and atomic replacement of the file: the source has neither and runs no concurrency, so races are not modelled.
- The open `FileInputStream` left unclosed when findAll reads an empty file: a resource leak with no effect on the map.
- Starting, stopping, listing and log tailing (`MemberCommandLine`): not part of this model.
