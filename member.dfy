/**
 * The process store of the member command line (ProcessStore.java): a persistent
 * map from a member's name to its record, kept in one file under the home
 * directory. Every operation reads the whole map, changes it and writes the whole
 * map back; `file` is the content of that file.
 */
module Member {
  import opened Wrappers
  import opened Workspace
  import opened Registry

  class ProcessStore {
    const hazelcastHome: string
    /** The platform's path separator. */
    const separator: string
    const instancesFilePath: string := InstancesFilePath(hazelcastHome, separator)
    /** What the file at instancesFilePath holds. */
    var file: FileState

    /** `onDisk` is whatever the instances file already holds when the store is built. */
    constructor (hazelcastHome: string, separator: string, onDisk: FileState)
      ensures this.hazelcastHome == hazelcastHome && this.separator == separator
      ensures instancesFilePath == InstancesFilePath(hazelcastHome, separator)
      ensures file == onDisk
    {
      this.hazelcastHome := hazelcastHome;
      this.separator := separator;
      this.file := onDisk;
    }

    /** Reads the whole map, creating the file empty first when it is absent. */
    method FindAll() returns (r: Result<ProcessMap, StoreError>)
      modifies this
      ensures file == Opened(old(file))
      ensures r == ReadAll(old(file))
      ensures r.Failure? <==> old(file).Corrupt?
    {
      if file.Absent? {
        file := Empty;
      }
      if file.Empty? {
        return Success(map[]);
      }
      if file.Corrupt? {
        return Failure(ReadFailed);
      }
      r := Success(file.processes);
    }

    /** Overwrites the file with `processMap`. */
    method UpdateFile(processMap: ProcessMap)
      modifies this
      ensures file == Stored(processMap)
    {
      file := Stored(processMap);
    }

    /** Inserts `process` under its name, replacing any record of that name. */
    method Save(process: HazelcastProcess) returns (r: Result<(), StoreError>)
      modifies this
      ensures r.Failure? <==> old(file).Corrupt?
      ensures r.Failure? ==> r.error == ReadFailed && file == old(file)
      ensures r.Success? ==> file == SaveTo(old(file), process).value
      ensures r.Success? ==> FindIn(file, process.name) == Success(Some(process))
      ensures WellKeyed(old(file)) ==> WellKeyed(file)
    {
      var all := FindAll();
      if all.Failure? {
        return Failure(all.error);
      }
      var processMap := all.value;
      processMap := processMap[process.name := process];
      UpdateFile(processMap);
      r := Success(());
      SaveThenFind(old(file), process);
      if WellKeyed(old(file)) {
        SavePreservesKeyedByName(old(file), process);
      }
    }

    /** The record stored under `name`, or None. */
    method Find(name: string) returns (r: Result<Option<HazelcastProcess>, StoreError>)
      modifies this
      ensures file == Opened(old(file))
      ensures r == FindIn(old(file), name)
    {
      var all := FindAll();
      match all
      case Failure(e) =>
        r := Failure(e);
      case Success(processMap) =>
        r := Success(if name in processMap then Some(processMap[name]) else None);
    }

    /** Deletes the record under `name`; a name that is not stored is an error and nothing is written. */
    method Remove(name: string) returns (r: Result<(), StoreError>)
      modifies this
      ensures r.Failure? <==> RemoveFrom(old(file), name).Failure?
      ensures r.Failure? ==> r.error == RemoveFrom(old(file), name).error
      ensures r.Failure? ==> file == Opened(old(file)) && ReadAll(file) == ReadAll(old(file))
      ensures r.Success? ==> file == RemoveFrom(old(file), name).value
      ensures r.Success? ==> ExistsIn(file, name) == Success(false)
      ensures WellKeyed(old(file)) ==> WellKeyed(file)
    {
      var all := FindAll();
      if all.Failure? {
        return Failure(all.error);
      }
      var processMap := all.value;
      if name !in processMap {
        return Failure(NotFound(name));
      }
      processMap := processMap - {name};
      UpdateFile(processMap);
      r := Success(());
      if WellKeyed(old(file)) {
        RemovePreservesKeyedByName(old(file), name);
      }
    }

    /** Whether a record is stored under `name`. */
    method Exists(name: string) returns (r: Result<bool, StoreError>)
      modifies this
      ensures file == Opened(old(file))
      ensures r == ExistsIn(old(file), name)
    {
      var all := FindAll();
      match all
      case Failure(e) =>
        r := Failure(e);
      case Success(processMap) =>
        r := Success(name in processMap);
    }

    /**
     * The record of a new member called `name` (drawn at random by the caller),
     * with the text of the logging configuration written into its workspace.
     * The record is not saved, and the name is not checked against stored keys.
     */
    method Create(name: string) returns (process: HazelcastProcess, loggingProperties: string)
      ensures process.name == name && process.pid == None
      ensures process.logFilePath == LogFilePath(hazelcastHome, separator, name)
      ensures process.loggingPropertiesPath == LoggingPropertiesPath(hazelcastHome, separator, name)
      ensures HasLine(loggingProperties, PatternKey + process.logFilePath)
      ensures process.logFilePath != process.loggingPropertiesPath
      ensures process.logFilePath != instancesFilePath && process.loggingPropertiesPath != instancesFilePath
    {
      var processDir := CreateProcessDirs(name);
      var logFilePath := processDir + separator + LogsDir + separator + LogsFileName;
      var loggingPropertiesPath;
      loggingPropertiesPath, loggingProperties := CreateLoggingPropertiesFile(processDir, logFilePath);
      process := HazelcastProcess(name, loggingPropertiesPath, logFilePath, None);
      StoreFilesDistinct(hazelcastHome, separator, name, name);
    }

    /** The workspace directory of `name`; its logs subdirectory is what gets created. */
    method CreateProcessDirs(name: string) returns (processPath: string)
      ensures processPath == ProcessDir(hazelcastHome, separator, name)
      ensures IsPrefix(hazelcastHome + separator, processPath)
    {
      processPath := hazelcastHome + separator + name;
      WorkspaceLayout(hazelcastHome, separator, name);
    }

    /** The path of the logging configuration in `processDir`, and the text written there. */
    method CreateLoggingPropertiesFile(processDir: string, logFilePath: string)
      returns (loggingPropertiesPath: string, fileContent: string)
      ensures loggingPropertiesPath == processDir + separator + LoggingPropertiesFileName
      ensures IsPrefix(processDir + separator, loggingPropertiesPath)
      ensures HasLine(fileContent, PatternKey + logFilePath)
    {
      loggingPropertiesPath := processDir + separator + LoggingPropertiesFileName;
      fileContent := LoggingProperties(logFilePath);
      LoggingPropertiesNameLogFile(logFilePath);
      assert (processDir + separator + LoggingPropertiesFileName)[..|processDir + separator|] == processDir + separator;
    }
  }
}
