/** The optional value used wherever the bot may or may not have something:
    a geocoder match, a key of a decoded JSON response, the first qualifying entry. */
module Optional {

  datatype Option<+T> = None | Some(value: T)
}
