/** The optional value used wherever the editor may find "nothing": an idle pane
    has no active shape, and a tool without a registered normaliser has no geometry. */
module Wrappers {

  datatype Option<+T> = None | Some(value: T)
}
