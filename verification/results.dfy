/** The outcomes of resolving and rewriting a shebang: the program's error kinds and
    the Option/Result wrappers that carry them. */
module Results {

  /** The reasons `process_file` and `which_in_path` fail. `Io` stands for every
      failure of the file system calls (open, read, write, stat, set-mtime). */
  datatype Error =
    | NotFound(program: string)
    | InvalidShebang(line: string)
    | UnsupportedShebang(line: string)
    | Io(path: string)

  datatype Result<+T> = Ok(value: T) | Err(error: Error)

  datatype Option<+T> = None | Some(value: T)
}
