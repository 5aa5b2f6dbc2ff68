/**
 * The engine's path helpers and file system, which the exporter only queries. Each is an
 * oracle: the model fixes no behaviour for them beyond being a function of its argument.
 */
module Platform {

  datatype Host = Host(
    getPath: string -> string,            // FPaths::GetPath: the directory part of a file name
    getExtension: string -> string,       // FPaths::GetExtension: the extension, without the dot
    combine: (string, string) -> string,  // FPaths::Combine and FString's operator /
    makeDirectory: string -> bool,        // IFileManager::MakeDirectory(Path, Tree = true) succeeded
    isReadOnly: string -> bool,           // IFileManager::IsReadOnly
    directoryExists: string -> bool       // FPaths::DirectoryExists
  )

}
