/** The errors the application raises. */
module Errors {

  datatype Error =
    | InvalidSelection           // the ValueError that get_scheme raises for an unsupported pair
    | FileNotFound(path: string) // the FileNotFoundError that load_key raises for a missing file
}
