// Types shared by the whole model.
module Basics {
  datatype Option<+T> = None | Some(value: T)

  // What a Kubernetes condition can say.
  datatype Tri = True | False | Unknown

  function One(b: bool): nat { if b then 1 else 0 }
}
