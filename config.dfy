/** The fixed strings of the generator: the `GenerateConfig` constants and the
    two platform constants the text depends on. */
module GenerateConfig {
  /** Prefix of every generated field name. */
  const PARAM_PREFIX: string := "_"
  /** One level of indentation in the generated class. */
  const TAB_CHARACTER: string := "    "
  /** PHP_EOL, fixed to the Unix line ending. */
  const EOL_CHAR: char := '\n'
  const EOL: string := [EOL_CHAR]
  /** DIRECTORY_SEPARATOR, fixed to the Unix separator. */
  const DIRECTORY_SEPARATOR: string := "/"
  /** The PHP namespace delimiter `\`. */
  const NAMESPACE_SEPARATOR: char := '\\'
}
