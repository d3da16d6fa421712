/** The Python values the components pass around in parameter dicts. */
module PyValues {

  /** Python's `None` or a value. */
  datatype Option<T> = None | Some(value: T)

  /** A value, or the exception that computing it raises. */
  datatype Result<T, E> = Ok(value: T) | Err(error: E)

  /** The `DsgEnums` driver constants; any other value stands for a driver the
      converter does not dispatch on. */
  datatype Driver = PostGIS | SpatiaLite | Geopackage | Shapefile | OtherDriver(code: int)

  /** A value stored in a parameter dict: a string, a boolean or a driver constant. */
  datatype Value = Str(s: string) | Flag(b: bool) | Drv(driver: Driver)

  /** A Python dict with string keys, such as the connection parameters. */
  type Dict = map<string, Value>

  /** The database object a creator or a connector returns; its contents are
      not modelled. */
  datatype DbHandle = DbHandle(id: int)

  /** What a call into a database creator does: it returns a database, or it
      raises an exception with the given `args`. */
  datatype Creation = Created(db: DbHandle) | Raised(args: seq<string>)
}
