/** Names shared by the models of Login and Proxy. Freshness of a generated id is stated where the id is drawn. */
module Common {
  datatype Option<+T> = None | Some(value: T)

  datatype EnterpriseId = EnterpriseId(name: string)
  datatype Identity = Identity(name: string)
  datatype TaskId = TaskId(uuid: string)
  datatype AttemptId = AttemptId(uuid: string)
  datatype Token = Token(secret: string)

  function Min(a: int, b: int): int { if a <= b then a else b }
  function Max(a: int, b: int): int { if a >= b then a else b }
}
