/** The case-conversion collaborator the builders consume: the global
    helpers str_to_pascal, str_to_camel and str_to_snake.  They are not part
    of the builders, so callers hand them in as three string functions. */
module NameConversion {
  datatype Naming = Naming(pascal: string -> string, camel: string -> string, snake: string -> string)
}
