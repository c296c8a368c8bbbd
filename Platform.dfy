/** The operating system the application is built for, where behaviour depends on it. */
module Platform {
  /** `cfg!(target_os = …)`: macOS, Linux, or any other target. */
  datatype Os = MacOs | Linux | OtherOs
}
