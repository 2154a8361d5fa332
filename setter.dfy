/** The overrides the command line collects (Setter.cs). */
module Setters {
  import opened Wrappers

  /** `PlaylistFromAlbum` and the five optional strings; `None` is `null`. */
  datatype Setter = Setter(
    playlistFromAlbum: bool,
    playlist: Option<string>,
    subPlaylist: Option<string>,
    unlockId: Option<string>,
    unlockRequire: Option<string>,
    unlockText: Option<string>)

  /** `new Setter()`: no flag set, every string `null`. */
  const NoOverrides: Setter := Setter(false, None, None, None, None, None)
}
