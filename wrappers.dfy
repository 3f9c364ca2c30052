/** Optional values (`T | null`, `T | undefined`) and the error path of the context hooks. */
module Wrappers {

  datatype Option<+T> = None | Some(value: T)

  datatype Result<+T, +E> = Success(value: T) | Failure(error: E)

  /** `localStorage.getItem(key)`: the stored string, or null when the key is absent. */
  function Lookup<K, V>(m: map<K, V>, key: K): (r: Option<V>)
    ensures r.Some? <==> key in m
    ensures r.Some? ==> r.value == m[key]
  {
    if key in m then Some(m[key]) else None
  }

  /** What `useTheme` and `useAuth` do with `useContext`: hand back the provider's value,
      or throw `message` when the component is not inside the provider. */
  function RequireContext<T>(context: Option<T>, message: string): (r: Result<T, string>)
    ensures r.Success? <==> context.Some?
    ensures r.Success? ==> r.value == context.value
    ensures r.Failure? ==> r.error == message
  {
    match context
    case Some(v) => Success(v)
    case None => Failure(message)
  }
}
