/** The optional value shared by the classifier (no matching track) and the
    analyser (no reported page count). */
module Optional {
  datatype Option<T> = None | Some(value: T)
}
