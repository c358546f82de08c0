/** Values shared by the player, its command mailbox and the surface binding. */
module Types {

  datatype Option<T> = None | Some(value: T)

  /** A media locator, handed to the player at prepare time. */
  datatype Media = Media(path: string)

  /** Opaque handle of an Android drawing surface. */
  type SurfaceId = nat

  /** What an attach command carries: the surface and the size of the view that owns it. */
  datatype SurfaceDescriptor = SurfaceDescriptor(surface: SurfaceId, width: int, height: int)

  /** A video view the player can render into; two views are the same sink only if they are the same object. */
  datatype Sink = SurfaceViewSink(id: nat) | TextureViewSink(id: nat)

  /** One call into the native engine (media player, its media or its video output). */
  datatype EngineCall =
    | SetMedia(path: string)   // a fresh native media for the path, handed to the media player
    | ReloadMedia              // the current media handed to the media player again
    | Play
    | Pause
    | SetTime(positionMs: int)
    | Stop
    | ReleasePlayer
    | ReleaseLibrary
    | SetWindowSize(width: int, height: int)
    | SetVideoSurface(surface: SurfaceId)
    | AttachViews
    | DetachViews
}
