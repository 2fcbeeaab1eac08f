/** The room for a value in a node. */
module Storages {
  datatype Storage<T> = Vacant | Full(value: T)
}
