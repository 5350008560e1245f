/** Python values as they travel through keyword arguments and configuration attributes. */
module PyValues {
  import opened Wrappers

  /**
   * The values a caller can pass as a keyword argument and a configuration can hold: the
   * declared field types (`str`, `int`, `float`, `bool`, `None`, a list of `str` for `stop`).
   * Floats are carried as opaque reals; nothing in the modelled code inspects them.
   */
  datatype Value =
    | VNone
    | VBool(b: bool)
    | VInt(i: int)
    | VFloat(f: real)
    | VStr(s: string)
    | VStrList(items: seq<string>)

  /** The `**kwargs` of a call: keyword name to value. */
  type Kwargs = map<string, Value>

  /**
   * A callee with parameter `name` (default `default`) receiving `**kw`: Python binds a
   * keyword `name` in `kw` to the parameter; the rest stays in the callee's `**kwargs`.
   */
  function Bind(kw: Kwargs, name: string, default: Value): (Value, Kwargs) {
    if name in kw then (kw[name], kw - {name}) else (default, kw)
  }

  /**
   * The call `f(..., name=v, **kw)`: Python raises `TypeError` ("got multiple values for
   * keyword argument") when `kw` also holds `name`.
   */
  function PassKeyword(kw: Kwargs, name: string, v: Value): Result<Kwargs> {
    if name in kw then Err(TypeError) else Ok(kw[name := v])
  }
}
