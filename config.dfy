/** The tool factory's settings that its generation, validation and sandbox logic read. */
module FactoryConfig {

  datatype ToolFactoryConfig = ToolFactoryConfig(
    sandboxTimeout: real,
    maxOutputSize: nat,
    maxToolSizeLines: int,
    blockedImports: seq<string>,
    successRateThreshold: real,
    maxGenerationAttempts: int)

  const BlockedImports: seq<string> :=
    ["subprocess", "shutil", "socket", "http", "ctypes", "os", "sys", "eval", "exec", "compile", "__import__"]

  /** The defaults: 30 s timeout, 100000 characters of output, 100 lines, 80% to register, 3 attempts. */
  const DefaultConfig := ToolFactoryConfig(30.0, 100000, 100, BlockedImports, 0.8, 3)
}
